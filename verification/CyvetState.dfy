/**
 The Cyvet worker's shared state, the ledger of everything that happened to it,
 and the invariant that ties them together.

 Service threads and the worker share a few fields under one mutex (`Shared`).
 Every critical section, motion report and robot call leaves an entry in a log,
 stamped with the clock; `Fold` sums the log up in a ledger, and `Fine` is what
 the log promises: each entry was allowed by the ledger of its past. The
 sections are functions on values here; the lemmas say that each keeps the
 invariant.
 */
module CyvetState {
  import opened Prelude

  datatype Profile = Slow | Fast

  datatype Action = Walking | Standing | Laying | EmergencyStop | OtherAction(code: nat)

  datatype Client = Disconnected | Connected | Controlled

  datatype Task = Connect | Disconnect | TakeControl | Stand | Lie | Release | SoftEstop | SetProfile(profile: Profile)

  predicate Urgent(t: Task) { t.Disconnect? || t.Lie? || t.Release? || t.SoftEstop? }

  predicate Prepares(t: Task) { t.Stand? || t.SetProfile? }

  datatype Job = Job(id: nat, task: Task, generation: nat)

  datatype Velocity = Velocity(id: nat, x: real, y: real, yaw: real, at: int, generation: nat)

  const CAPACITY := 16

  /**
   What service threads and the worker both write. `callers` are the stop callers
   inside submit, `answered` the jobs whose promise was set; `accepted` and
   `moves` number the jobs and the velocities.
   */
  datatype Shared = Shared(
    ready: bool, generation: nat, velocity: Option<Velocity>,
    urgent: seq<Job>, normal: seq<Job>, stops: nat, quitting: bool,
    accepted: nat, moves: nat, callers: set<nat>, answered: set<nat>)

  /** What the worker knows of the robot; callbacks run on the worker's thread. */
  datatype Seen = Seen(
    client: Client, action: Action, latched: bool, still: bool, reported: Option<Profile>,
    replyAt: int, systemAt: int, pendingMotion: Option<int>, pendingSystem: Option<int>,
    owned: bool, connected: bool)

  // ---------- The log ----------

  /** Commands to the robot; parameters and a started walk carry zero velocity. */
  datatype Rpc =
    | SetParams(profile: Profile) | StopAction | StartAction(action: Action) | EmergencyStopCall | ReleaseCall

  datatype How = Ran(success: bool) | Superseded | Threw | Drained

  /**
   `Read` is the worker's copy of the cached velocity, `Timed` its reading of the
   clock for the age test, `Tested` its test that the generation is still that of
   the copy, `Sent` a velocity on the wire, `Failed` one that did not get through. `Reported` is a
   motion report that was parsed, `Gained` the beginning of control, `Lost` its end as
   the connect callback tells it, and `Left` its end without a callback. `Disabled` is
   the worker switching motion off by itself, `Inhibited` any other inhibition.
   */
  datatype Entry =
    | Accepted(id: nat, task: Task, generation: nat)
    | Back(id: nat)
    | Moved(command: Velocity)
    | Read(command: Velocity)
    | Timed
    | Tested(command: Velocity)
    | Sent(command: Velocity)
    | Failed(command: Velocity)
    | Inhibited
    | Disabled
    | Lost
    | Gained
    | Left
    | Reported(action: Action)
    | Issued(rpc: Rpc)
    | Enabled(token: nat)
    | Popped(id: nat, urgent: bool, task: Task)
    | Settled(id: nat, how: How)

  /** An entry and the clock when it was made. */
  datatype Stamp = Stamp(at: int, entry: Entry)

  /** Entries that start a new generation. */
  predicate Bumps(e: Entry) {
    e.Inhibited? || e.Disabled? || e.Lost? || (e.Accepted? && (Urgent(e.task) || Prepares(e.task)))
  }

  /** Whether motion is enabled in the current generation, and the velocity that failed in it last. */
  datatype Gate = Gate(generation: nat, ready: bool, last: Option<Entry>, failing: Option<Velocity>)

  /** The job last taken: its task, the wire when it was taken, and whether it has enabled motion. */
  datatype Run = Run(task: Task, since: Wire, enabled: bool)

  /** What only the worker changes: the job it runs, its copy of a velocity, and how far it is with that. */
  datatype Hand = Hand(
    running: Option<nat>, run: Option<Run>, urgent: bool, lastStop: int,
    copy: Option<Velocity>, spent: bool, timed: Option<int>, tested: Option<Velocity>, failed: set<nat>)

  /** The last command on the wire that decides how the robot moves. */
  datatype Motion = NoMotion | Drive | Order(rpc: Rpc)

  /**
   What went to and came from the robot: the last report and motion command, what
   was reported since that command, whether control is held, and counts.
   */
  datatype Wire = Wire(
    report: Action, latest: Motion, answers: set<Action>, held: bool,
    sent: nat, orders: nat, stops: nat, emergencies: nat, releases: nat, losses: nat, estops: nat, lays: nat, offs: nat)

  /** `taken` jobs have left their queue, `waiting` are the stop callers still inside their call. */
  datatype Ledger = Ledger(
    clock: int, accepted: nat, urgent: set<nat>, plain: set<nat>, taken: set<nat>, settled: set<nat>,
    waiting: set<nat>, tasks: map<nat, Task>, moved: set<Velocity>, moves: nat, gate: Gate, hand: Hand, wire: Wire)

  const NO_ACTION := OtherAction(0)

  function Empty(now: int): Ledger {
    Ledger(now, 0, {}, {}, {}, {}, {}, map[], {}, 0, Gate(0, false, None, None),
           Hand(None, None, false, -1, None, false, None, None, {}),
           Wire(NO_ACTION, NoMotion, {}, false, 0, 0, 0, 0, 0, 0, 0, 0, 0))
  }

  function Place(w: Wire, rpc: Rpc): Wire {
    if rpc == ReleaseCall then w.(releases := w.releases + 1)
    else
      w.(latest := Order(rpc), answers := {}, orders := w.orders + 1,
         stops := w.stops + (if rpc == StopAction then 1 else 0),
         emergencies := w.emergencies + if rpc == EmergencyStopCall then 1 else 0)
  }

  function Listen(w: Wire, action: Action): Wire {
    w.(report := action, answers := w.answers + {action},
       estops := if action == EmergencyStop then w.estops + 1 else w.estops,
       lays := if action == Laying then w.lays + 1 else w.lays)
  }

  function Pop(h: Hand, id: nat, urgent: bool, task: Task, wire: Wire): Hand {
    h.(running := Some(id), run := Some(Run(task, wire, false)), urgent := urgent,
       lastStop := if urgent then id else h.lastStop, copy := None, timed := None, tested := None)
  }

  function Enabling(h: Hand): Hand {
    if h.run == None then h else h.(run := Some(h.run.value.(enabled := true)))
  }

  function Take(h: Hand, c: Velocity): Hand {
    h.(copy := Some(c), spent := false, timed := None, tested := None)
  }

  ghost function Apply(l: Ledger, st: Stamp): Ledger {
    var e := st.entry;
    var m := l.(clock := st.at,
                gate := if Bumps(e) then Gate(l.gate.generation + 1, false, Some(e), None) else l.gate);
    match e
    case Accepted(id, task, _) =>
      var tasks := m.tasks[id := task];
      if Urgent(task) then
        m.(accepted := id + 1, urgent := m.urgent + {id}, waiting := m.waiting + {id}, tasks := tasks)
      else
        m.(accepted := id + 1, plain := m.plain + {id}, tasks := tasks)
    case Back(id) => m.(waiting := m.waiting - {id})
    case Moved(c) => m.(moved := m.moved + {c}, moves := c.id + 1)
    case Read(c) => m.(hand := Take(m.hand, c))
    case Timed => m.(hand := m.hand.(timed := Some(st.at)))
    case Tested(c) => m.(hand := m.hand.(tested := Some(c)))
    case Sent(_) =>
      m.(hand := m.hand.(spent := true, timed := None, tested := None), gate := m.gate.(failing := None),
         wire := m.wire.(sent := m.wire.sent + 1, latest := Drive, answers := {}))
    case Failed(c) => m.(hand := m.hand.(failed := m.hand.failed + {c.id}), gate := m.gate.(failing := Some(c)))
    case Inhibited => m
    case Disabled => m.(wire := m.wire.(offs := m.wire.offs + 1))
    case Lost => m.(wire := m.wire.(losses := m.wire.losses + 1, held := false))
    case Gained => m.(wire := m.wire.(held := true))
    case Left => m.(wire := m.wire.(held := false))
    case Reported(action) => m.(wire := Listen(m.wire, action))
    case Issued(rpc) => m.(wire := Place(m.wire, rpc))
    case Enabled(_) => m.(gate := m.gate.(ready := true, failing := None), hand := Enabling(m.hand))
    case Popped(id, urgent, task) => m.(taken := m.taken + {id}, hand := Pop(m.hand, id, urgent, task, m.wire))
    case Settled(id, _) =>
      m.(taken := m.taken + {id}, settled := m.settled + {id}, hand := m.hand.(running := None))
  }

  ghost function Fold(start: int, log: seq<Stamp>): Ledger {
    if log == [] then Empty(start) else Apply(Fold(start, log[..|log| - 1]), log[|log| - 1])
  }

  /** A preparation accepted as that job, starting that generation. */
  predicate Prepared(e: Entry, id: nat, token: nat) {
    e.Accepted? && Prepares(e.task) && e.id == id && e.generation == token
  }

  /** Every job of that class accepted before this one has been taken. */
  ghost predicate Earliest(ids: set<nat>, taken: set<nat>, id: nat) {
    forall i :: i in ids && i < id ==> i in taken
  }

  /** A stop was ordered since, and walking reported after it; or an emergency stop from before was reported again. */
  predicate Halting(since: Wire, w: Wire) {
    || (since.stops < w.stops && w.latest == Order(StopAction) && Walking in w.answers)
    || (since.report == EmergencyStop && since.estops < w.estops)
  }

  /** What a success of that task means for the wire, from the moment the job was taken. */
  predicate Fulfilled(task: Task, since: Wire, w: Wire) {
    match task
    case Release => !w.held && (since.held ==> Halting(since, w))
    case Disconnect => !w.held && (since.held ==> Halting(since, w))
    case SoftEstop =>
      since.emergencies < w.emergencies && w.latest == Order(EmergencyStopCall) && EmergencyStop in w.answers
    case Lie => !w.held && since.orders < w.orders && w.latest == Order(StartAction(Laying)) && Laying in w.answers
    case TakeControl => w.held
    case _ => true
  }

  /**
   A job's result: success of a preparation is having enabled motion, and nothing else
   may have; any other success has its meaning; overtaken work has commanded nothing.
   */
  ghost predicate Earned(run: Run, w: Wire, how: How) {
    && (run.enabled ==> how == Ran(true))
    && (how == Ran(true) ==> Fulfilled(run.task, run.since, w) && (Prepares(run.task) ==> run.enabled))
    && (how == Superseded ==> !Urgent(run.task) && WireKept(run.since, w))
  }

  /** What an entry promises, given the ledger of everything before it. */
  ghost predicate EntryFine(limit: int, l: Ledger, st: Stamp) {
    && l.clock <= st.at
    && match st.entry
       case Accepted(id, task, generation) =>
         && id == l.accepted && (Prepares(task) ==> l.waiting == {})
         && generation == l.gate.generation + if Bumps(st.entry) then 1 else 0
       case Back(id) => id in l.waiting && id in l.settled
       case Moved(c) => c.at == st.at && c.id == l.moves && l.gate.ready && c.generation == l.gate.generation
       case Read(c) =>
         l.hand.running == None && c in l.moved && l.gate.ready && c.generation == l.gate.generation
       case Timed => l.hand.copy.Some?
       case Tested(c) => l.hand.copy == Some(c) && l.gate.ready && c.generation == l.gate.generation
       case Sent(c) =>
         && l.hand.tested == Some(c) && !l.hand.spent && l.hand.timed.Some? && l.hand.timed.value - c.at <= limit
         && c.id !in l.hand.failed && l.wire.report == Walking
         && (l.gate.failing.Some? ==> c.at > l.gate.failing.value.at && c.generation == l.gate.failing.value.generation)
       case Failed(c) => l.hand.copy == Some(c) && l.gate.failing == None
       case Issued(rpc) => rpc.SetParams? || rpc.StopAction? ==> l.wire.report != EmergencyStop
       case Enabled(token) =>
         && l.waiting == {} && l.hand.running.Some? && l.gate.last.Some? && l.wire.report == Walking
         && token == l.gate.generation && Prepared(l.gate.last.value, l.hand.running.value, token)
         && l.hand.tested == None && l.wire.latest != Drive
       case Popped(id, urgent, task) =>
         && l.hand.running == None && id !in l.taken && id in l.tasks && l.tasks[id] == task
         && (if urgent then id in l.urgent && Earliest(l.urgent, l.taken, id) && !l.gate.ready
             else id in l.plain && Earliest(l.plain, l.taken, id) && l.urgent <= l.taken)
       case Settled(id, how) =>
         && id in l.urgent + l.plain && id !in l.settled
         && (if how.Drained? then id !in l.taken && l.hand.running == None
             else l.hand.running == Some(id) && l.hand.run.Some? && Earned(l.hand.run.value, l.wire, how))
         && (how.Superseded? ==> id in l.plain)
         && (how.Threw? ==> !l.gate.ready && (l.wire.held ==> l.wire.latest == Order(EmergencyStopCall)))
       case _ => true
  }

  ghost predicate Fine(limit: int, start: int, log: seq<Stamp>) {
    log != [] ==>
      var past := log[..|log| - 1];
      Fine(limit, start, past) && EntryFine(limit, Fold(start, past), log[|log| - 1])
  }

  // ---------- The invariant ----------

  ghost predicate Books(l: Ledger) {
    && (forall i :: i in l.urgent || i in l.plain <==> 0 <= i < l.accepted)
    && l.urgent !! l.plain
    && l.settled <= l.taken && l.taken <= l.urgent + l.plain
    && (forall i :: i in l.taken && i !in l.settled <==> l.hand.running == Some(i))
    && (l.hand.running.Some? ==> (l.hand.running.value in l.urgent <==> l.hand.urgent))
    && l.waiting <= l.urgent
    && (forall i :: i in l.urgent && i !in l.settled ==> i in l.waiting)
  }

  ghost predicate Has(q: seq<Job>, id: nat) { exists k :: 0 <= k < |q| && q[k].id == id }

  /** The queue holds the accepted jobs of its class that were not taken yet, in order of acceptance. */
  ghost predicate Queue(q: seq<Job>, ids: set<nat>, taken: set<nat>) {
    && (forall k :: 0 <= k < |q| ==> q[k].id in ids && q[k].id !in taken)
    && (forall a, b :: 0 <= a < b < |q| ==> q[a].id < q[b].id)
    && (forall i :: i in ids && i !in taken ==> Has(q, i))
  }

  /** Stops up to the last one popped have been taken, the queued ones come later. */
  ghost predicate Passed(s: Shared, l: Ledger) {
    && l.hand.lastStop < s.accepted
    && (forall i :: i in l.urgent && i <= l.hand.lastStop ==> i in l.taken)
  }

  /** If nothing was accepted or inhibited since that preparation, no stop is pending either. */
  ghost predicate Fresh(s: Shared, l: Ledger, id: nat, token: nat) {
    s.generation == token ==> s.stops == 0 && l.gate.last.Some? && Prepared(l.gate.last.value, id, token)
  }

  ghost predicate PlainOk(s: Shared, l: Ledger, j: Job) {
    && !Urgent(j.task) && j.generation <= s.generation
    && (Prepares(j.task) ==> Fresh(s, l, j.id, j.generation) && (j.generation == s.generation ==> !s.ready))
  }

  ghost predicate Tasks(s: Shared, l: Ledger) {
    && (forall k :: 0 <= k < |s.urgent| ==> Urgent(s.urgent[k].task) && s.urgent[k].generation <= s.generation)
    && (forall k :: 0 <= k < |s.normal| ==> PlainOk(s, l, s.normal[k]))
    && Known(s.urgent, l.tasks) && Known(s.normal, l.tasks)
  }

  /** The log knows these jobs by what they were accepted for. */
  ghost predicate Known(q: seq<Job>, tasks: map<nat, Task>) {
    forall k :: 0 <= k < |q| ==> q[k].id in tasks && tasks[q[k].id] == q[k].task
  }

  /**
   Motion is enabled only while no stop is pending, walking was reported last and
   control is held; and the fields say what the log says.
   */
  ghost predicate Steady(s: Shared, v: Seen, l: Ledger) {
    && s.ready == l.gate.ready && s.generation == l.gate.generation && v.action == l.wire.report
    && (v.client == Controlled <==> l.wire.held)
    && (s.stops > 0 ==> !s.ready)
    && (s.ready ==> v.action == Walking && (v.client == Controlled || s.quitting))
    && (v.action == EmergencyStop ==> v.latched)
    && (s.velocity.Some? ==> s.ready && s.velocity.value.generation == s.generation)
  }

  /** A failed velocity is cached only while it is the one that failed last; the copy is never newer than the cache. */
  ghost predicate VelocityOk(s: Shared, l: Ledger) {
    && s.moves == l.moves
    && (forall c :: c in l.moved ==> c.id < s.moves)
    && (forall i :: i in l.hand.failed ==> i < s.moves)
    && (l.hand.copy.Some? ==> l.hand.copy.value.id < s.moves)
    && (s.velocity.Some? ==>
        && s.velocity.value in l.moved
        && (s.velocity.value.id in l.hand.failed ==>
            l.gate.failing.Some? && l.gate.failing.value.id == s.velocity.value.id)
        && (l.hand.copy.Some? ==>
            l.hand.copy == s.velocity || l.hand.copy.value.id < s.velocity.value.id))
  }

  /** The shared state agrees with the ledger. */
  ghost predicate Agrees(s: Shared, l: Ledger) {
    && s.accepted == l.accepted && s.callers == l.waiting && s.answered == l.settled && s.stops == |l.waiting|
    && VelocityOk(s, l) && Books(l) && Passed(s, l)
    && Queue(s.urgent, l.urgent, l.taken)
    && Queue(s.normal, l.plain, l.taken)
    && Tasks(s, l)
  }

  /** What holds between any two steps of any thread. */
  ghost predicate Inv(s: Shared, v: Seen, l: Ledger) { Steady(s, v, l) && Agrees(s, l) }

  // ---------- What steps may do ----------

  ghost predicate WireOn(w: Wire, w': Wire) {
    && w.stops <= w'.stops && w.emergencies <= w'.emergencies && w.releases <= w'.releases
    && w.losses <= w'.losses && w.estops <= w'.estops && w.lays <= w'.lays && w.sent <= w'.sent
    && w.offs <= w'.offs && w.orders <= w'.orders
  }

  /** Steps of any thread that enable nothing and send no velocity. */
  ghost predicate Goes(s: Shared, l: Ledger, s': Shared, l': Ledger) {
    && s.generation <= s'.generation
    && (s.quitting ==> s'.quitting)
    && (s'.ready ==> s.ready && s'.generation == s.generation)
    && (s'.generation == s.generation ==> s'.stops <= s.stops && l'.gate == l.gate)
    && l'.hand == l.hand && WireOn(l.wire, l'.wire) && l'.wire.sent == l.wire.sent
    && (l'.wire.latest == Drive ==> l.wire.latest == Drive)
    && (l'.gate.failing.Some? ==> l'.gate.failing == l.gate.failing)
  }

  /** Everything the relations between moments speak of. */
  datatype World = World(shared: Shared, seen: Seen, now: int, log: seq<Stamp>, ledger: Ledger)

  ghost predicate Later(a: World, b: World) {
    && a.log <= b.log && a.now <= b.now
    && a.shared.generation <= b.shared.generation && (a.shared.quitting ==> b.shared.quitting)
    && WireOn(a.ledger.wire, b.ledger.wire)
  }

  /** Steps of the worker that may also pop and settle jobs. */
  ghost predicate Works(a: World, b: World) {
    Later(a, b) && a.ledger.hand.lastStop <= b.ledger.hand.lastStop
  }

  /** Steps within one job; they may enable motion or send velocities. */
  ghost predicate Proceeds(a: World, b: World) {
    && Later(a, b)
    && b.ledger.hand.running == a.ledger.hand.running && b.ledger.hand.urgent == a.ledger.hand.urgent
    && b.ledger.hand.lastStop == a.ledger.hand.lastStop
    && SameRun(a.ledger.hand.run, b.ledger.hand.run)
  }

  /** The same job, whether or not it has enabled motion. */
  ghost predicate SameRun(a: Option<Run>, b: Option<Run>) {
    && (a == None <==> b == None)
    && (a.Some? ==> b.value.task == a.value.task && b.value.since == a.value.since)
  }

  /** Such steps that enable nothing. */
  ghost predicate Sends(a: World, b: World) {
    && Proceeds(a, b) && b.ledger.hand.run == a.ledger.hand.run
    && (b.shared.ready ==> a.shared.ready && b.shared.generation == a.shared.generation)
    && (b.seen.action == EmergencyStop ==>
        a.seen.action == EmergencyStop || a.ledger.wire.estops < b.ledger.wire.estops)
  }

  /**
   Such steps that send no velocity either. Control is only lost together with a
   new generation, a latched stop stays latched, and an emergency stop is only
   known from a report.
   */
  ghost predicate Reaches(a: World, b: World) {
    && a.log <= b.log && a.now <= b.now
    && Goes(a.shared, a.ledger, b.shared, b.ledger)
    && (a.seen.client == Controlled && b.seen.client != Controlled ==>
        a.shared.generation < b.shared.generation && a.ledger.wire.losses < b.ledger.wire.losses)
    && (a.seen.latched ==> b.seen.latched)
    && (b.seen.action == EmergencyStop ==>
        a.seen.action == EmergencyStop || a.ledger.wire.estops < b.ledger.wire.estops)
  }

  /** The same motion commands, and the worker has not switched motion off. */
  ghost predicate WireKept(w: Wire, w': Wire) {
    && w'.latest == w.latest && w'.stops == w.stops && w'.emergencies == w.emergencies && w'.offs == w.offs
    && w'.orders == w.orders
    && w.answers <= w'.answers
  }

  /** Such steps that only listen: no motion command goes out. */
  ghost predicate Hears(a: World, b: World) {
    Reaches(a, b) && WireKept(a.ledger.wire, b.ledger.wire)
  }

  /** Such steps that may also leave control without a callback. */
  ghost predicate Leaves(a: World, b: World) {
    && a.log <= b.log && a.now <= b.now
    && Goes(a.shared, a.ledger, b.shared, b.ledger) && b.ledger.wire.latest == a.ledger.wire.latest
    && a.ledger.wire.answers <= b.ledger.wire.answers
    && (b.seen.action == EmergencyStop ==>
        a.seen.action == EmergencyStop || a.ledger.wire.estops < b.ledger.wire.estops)
  }

  /** A stop command went out, or the robot was or came to be reported in an emergency stop. */
  ghost predicate Stops(a: World, b: World) {
    || a.ledger.wire.stops < b.ledger.wire.stops
    || a.seen.action == EmergencyStop || a.ledger.wire.estops < b.ledger.wire.estops
  }

  /**
   The good order of a loop head: enabled motion has no stop to recover and no
   velocity that just failed, and a robot last told to drive is known to be moving.
   */
  ghost predicate InOrder(w: World, halt: bool, active: bool) {
    w.shared.ready ==>
      && !halt && w.ledger.gate.failing == None
      && (w.ledger.wire.latest == Drive && !w.shared.quitting ==> active)
  }

  // ---------- Chaining steps ----------

  lemma OrderOn()
    ensures forall a, b, halt, active {:trigger Reaches(a, b), InOrder(a, halt, active)} ::
      Reaches(a, b) && InOrder(a, halt, active) ==> InOrder(b, halt, active)
  {
  }

  lemma ReachesMeans(a: World, b: World)
    requires Reaches(a, b)
    ensures a.shared.generation <= b.shared.generation && (a.shared.quitting ==> b.shared.quitting) && a.now <= b.now
    ensures b.shared.ready ==> a.shared.ready && b.shared.generation == a.shared.generation
    ensures b.shared.generation == a.shared.generation ==>
      b.shared.stops <= a.shared.stops && b.ledger.gate == a.ledger.gate
    ensures b.ledger.gate.failing.Some? ==> b.ledger.gate.failing == a.ledger.gate.failing
    ensures b.ledger.hand == a.ledger.hand && WireOn(a.ledger.wire, b.ledger.wire)
    ensures b.ledger.wire.sent == a.ledger.wire.sent
    ensures b.ledger.wire.latest == Drive ==> a.ledger.wire.latest == Drive
    ensures a.seen.client == Controlled && b.seen.client != Controlled ==>
      a.shared.generation < b.shared.generation && a.ledger.wire.losses < b.ledger.wire.losses
    ensures a.seen.latched ==> b.seen.latched
    ensures b.seen.action == EmergencyStop ==>
      a.seen.action == EmergencyStop || a.ledger.wire.estops < b.ledger.wire.estops
  {
  }

  lemma HearsOn()
    ensures forall a, b, c {:trigger Hears(a, b), Hears(b, c)} :: Hears(a, b) && Hears(b, c) ==> Hears(a, c)
    ensures forall a, b {:trigger Hears(a, b)} :: Hears(a, b) ==> Reaches(a, b)
  {
  }

  lemma ReachesOn()
    ensures forall a, b, c {:trigger Reaches(a, b), Reaches(b, c)} :: Reaches(a, b) && Reaches(b, c) ==> Reaches(a, c)
    ensures forall a, b {:trigger Hears(a, b)} :: Hears(a, b) ==> Reaches(a, b)
  {
  }

  /** Such steps leave what the running job has done alone. */
  lemma RunOn()
    ensures forall a, b {:trigger Reaches(a, b)} :: Reaches(a, b) ==> b.ledger.hand.run == a.ledger.hand.run
    ensures forall a, b {:trigger Hears(a, b)} :: Hears(a, b) ==> b.ledger.hand.run == a.ledger.hand.run
  {
  }

  lemma StillHears(a: World)
    ensures Hears(a, a)
  {
  }

  lemma TimePasses(a: World, now: int)
    requires a.now <= now
    ensures Hears(a, a.(now := now))
  {
  }

  lemma HearsReady(a: World, b: World)
    requires Hears(a, b)
    ensures b.shared.ready ==> a.shared.ready && b.shared.generation == a.shared.generation
  {
  }

  lemma HearsWire(a: World, b: World)
    requires Hears(a, b)
    ensures WireKept(a.ledger.wire, b.ledger.wire) && WireOn(a.ledger.wire, b.ledger.wire)
    ensures b.ledger.hand == a.ledger.hand && b.ledger.wire.sent == a.ledger.wire.sent
  {
  }

  lemma HearsGate(a: World, b: World)
    requires Hears(a, b)
    ensures b.ledger.hand == a.ledger.hand
    ensures b.shared.generation == a.shared.generation ==> b.ledger.gate == a.ledger.gate
    ensures b.ledger.gate.failing.Some? ==> b.ledger.gate.failing == a.ledger.gate.failing
  {
  }

  /** What a dispatch needs to know of the services' steps. */
  lemma StillListens(a: World, b: World, halt: bool, active: bool)
    requires Hears(a, b) && InOrder(a, halt, active)
    ensures InOrder(b, halt, active) && Sends(a, b) && a.now <= b.now && a.shared.generation <= b.shared.generation
    ensures b.ledger.hand == a.ledger.hand && b.ledger.wire.sent == a.ledger.wire.sent
    ensures b.shared.generation == a.shared.generation ==> b.ledger.gate == a.ledger.gate
    ensures a.ledger.gate.failing == None ==> b.ledger.gate.failing == None
  {
  }

  lemma HearsTime(a: World, b: World)
    requires Hears(a, b)
    ensures a.now <= b.now && a.shared.generation <= b.shared.generation && (a.shared.quitting ==> b.shared.quitting)
  {
  }

  lemma HearsControl(a: World, b: World)
    requires Hears(a, b)
    ensures a.seen.client == Controlled && b.seen.client != Controlled ==> b.shared.generation > a.shared.generation
  {
  }

  /** A release order is no motion command. */
  lemma ToldIsHeard(a: World, b: World)
    requires Reaches(a, b) && WireKept(a.ledger.wire, b.ledger.wire)
    ensures Hears(a, b)
  {
  }

  /** Under the same report, what came before adds nothing to what a later stop needs. */
  lemma CancelStops(a: World, b: World)
    requires WireOn(a.ledger.wire, b.ledger.wire) && b.seen.action == a.seen.action
    ensures forall c {:trigger Stops(b, c)} :: Stops(b, c) ==> Stops(a, c)
  {
  }

  /** Motion off, and the token of the running preparation. */
  ghost predicate Prepping(w: World, token: nat) {
    && !w.shared.ready && token <= w.shared.generation
    && w.ledger.hand.running.Some? && w.ledger.hand.run.Some? && w.ledger.hand.tested == None
    && Fresh(w.shared, w.ledger, w.ledger.hand.running.value, token)
  }

  lemma PreparingOn()
    ensures forall a, b, token {:trigger Reaches(a, b), Prepping(a, token)} ::
      Reaches(a, b) && Prepping(a, token) ==> Prepping(b, token)
    ensures forall a, b, token {:trigger Hears(a, b), Prepping(a, token)} ::
      Hears(a, b) && Prepping(a, token) ==> Prepping(b, token)
    ensures forall a, token {:trigger Prepping(a, token)} :: Prepping(a, token) ==> !a.shared.ready
  {
  }

  /** Since the job was taken nothing has gone out to the robot, and its state is what it was. */
  ghost predicate Untouched(w: World, run: Run) {
    && WireOn(run.since, w.ledger.wire) && WireKept(run.since, w.ledger.wire) && !run.enabled
    && run.since.report == w.seen.action && (run.since.held <==> w.seen.client == Controlled)
  }

  /** A job off its queue, and what it may rely on when it starts. */
  ghost predicate Startable(w: World, j: Job) {
    && w.ledger.hand.run.Some? && w.ledger.hand.run.value.task == j.task && Untouched(w, w.ledger.hand.run.value)
    && w.ledger.hand.running == Some(j.id) && (w.ledger.hand.urgent <==> Urgent(j.task))
    && w.ledger.hand.tested == None && j.generation <= w.shared.generation
    && (Urgent(j.task) ==> !w.shared.ready)
    && (Prepares(j.task) ==>
        && Fresh(w.shared, w.ledger, j.id, j.generation)
        && (j.generation == w.shared.generation ==> !w.shared.ready))
  }

  lemma StartableOn(a: World, b: World, j: Job)
    requires Hears(a, b) && Startable(a, j) && b.seen == a.seen
    ensures Startable(b, j)
    ensures b.shared.generation == j.generation && Prepares(j.task) ==> Prepping(b, j.generation)
  {
  }

  lemma PreparingMeans(w: World, token: nat)
    requires Prepping(w, token)
    ensures !w.shared.ready && token <= w.shared.generation
  {
  }

  /** What the worker knows is no part of these relations. */
  lemma SeenAlone(a: World, v: Seen)
    requires v.action == a.seen.action
    ensures Leaves(a, a.(seen := v)) && Sends(a, a.(seen := v))
  {
  }

  /** A stop stays done when more happens before or after it. */
  lemma StopsOn()
    ensures forall a, b, c {:trigger Stops(a, b), Reaches(b, c)} :: Stops(a, b) && Reaches(b, c) ==> Stops(a, c)
    ensures forall a, b, c {:trigger Stops(a, b), Sends(b, c)} :: Stops(a, b) && Sends(b, c) ==> Stops(a, c)
    ensures forall a, b, c {:trigger Stops(a, b), Works(b, c)} :: Stops(a, b) && Works(b, c) ==> Stops(a, c)
    ensures forall a, b, c {:trigger Reaches(a, b), Stops(b, c)} ::
      Reaches(a, b) && Stops(b, c) && Reaches(b, c) ==> Stops(a, c)
    ensures forall a, b, c {:trigger Sends(a, b), Stops(b, c)} ::
      Sends(a, b) && Stops(b, c) && Sends(b, c) ==> Stops(a, c)
  {
  }

  lemma LeavesOn()
    ensures forall a, b, c {:trigger Leaves(a, b), Leaves(b, c)} :: Leaves(a, b) && Leaves(b, c) ==> Leaves(a, c)
    ensures forall a, b {:trigger Hears(a, b)} :: Hears(a, b) ==> Leaves(a, b)
    ensures forall a, b, halt, active {:trigger Leaves(a, b), InOrder(a, halt, active)} ::
      Leaves(a, b) && InOrder(a, halt, active) ==> InOrder(b, halt, active)
  {
  }

  lemma LeavesSends(a: World, b: World)
    requires Leaves(a, b)
    ensures Sends(a, b) && b.ledger.wire.latest == a.ledger.wire.latest
    ensures a.ledger.wire.answers <= b.ledger.wire.answers
  {
  }

  lemma SendsOn()
    ensures forall a, b, c {:trigger Sends(a, b), Sends(b, c)} :: Sends(a, b) && Sends(b, c) ==> Sends(a, c)
    ensures forall a, b {:trigger Reaches(a, b)} :: Reaches(a, b) ==> Sends(a, b)
  {
  }

  ghost function Add(w: World, e: Entry): World {
    var st := Stamp(w.now, e);
    w.(log := w.log + [st], ledger := Apply(w.ledger, st))
  }

  /** Control is lost and motion inhibited at once. */
  lemma LossIsHeard(w: World)
    requires Inv(w.shared, w.seen, w.ledger)
    ensures var w' := Add(w, Lost).(shared := Inhibit(w.shared), seen := w.seen.(client := Connected));
      Hears(w, w') && Inv(w'.shared, w'.seen, w'.ledger) && w'.ledger.wire.losses > w.ledger.wire.losses
  {
    hide Agrees;
    InhibitKeeps(w.shared, w.seen, w.ledger, Stamp(w.now, Lost));
  }

  /** Control is taken. */
  lemma GainIsHeard(w: World)
    requires Inv(w.shared, w.seen, w.ledger)
    ensures var w' := Add(w, Gained).(seen := w.seen.(client := Controlled));
      Hears(w, w') && Inv(w'.shared, w'.seen, w'.ledger)
  {
  }

  /** Control is left without a callback, which motion must not survive. */
  lemma LeavingLeaves(w: World)
    requires Inv(w.shared, w.seen, w.ledger) && (w.shared.ready ==> w.shared.quitting)
    ensures var w' := Add(w, Left).(seen := w.seen.(client := Disconnected));
      Leaves(w, w') && Inv(w'.shared, w'.seen, w'.ledger) && w'.ledger.wire.releases == w.ledger.wire.releases
  {
  }

  lemma StopHalts(w: Wire, w': Wire)
    requires w.stops < w'.stops && w'.latest == Order(StopAction) && Walking in w'.answers
    ensures Halting(w, w')
  {
  }

  /** A confirmed stop stays one until the next motion command. */
  lemma HaltingOn(since: Wire, w: Wire, w': Wire)
    requires Halting(since, w) && WireOn(w, w') && w'.latest == w.latest && w.answers <= w'.answers
    ensures Halting(since, w')
  {
  }

  /** A stop counts from an earlier moment as well, under the same report. */
  lemma HaltingFrom(since: Wire, w: Wire, w': Wire)
    requires Halting(w, w') && WireOn(since, w) && w.report == since.report
    ensures Halting(since, w')
  {
  }

  /** A success keeps its meaning while services run and the worker knows nothing new. */
  lemma FulfilledOn(a: World, b: World, task: Task, since: Wire)
    requires Hears(a, b) && b.seen == a.seen && Fulfilled(task, since, a.ledger.wire)
    requires Inv(a.shared, a.seen, a.ledger) && Inv(b.shared, b.seen, b.ledger)
    ensures Fulfilled(task, since, b.ledger.wire)
  {
    hide Agrees;
  }

  /** What a job has done since it started it has done since it was taken. */
  lemma FulfilledFrom(w: World, run: Run, w': Wire)
    requires Untouched(w, run) && Inv(w.shared, w.seen, w.ledger) && Fulfilled(run.task, w.ledger.wire, w')
    ensures Fulfilled(run.task, run.since, w')
  {
    hide Agrees;
  }

  /** What the worker does with a velocity. */
  lemma VelocitySends(w: World, e: Entry)
    requires e.Read? || e.Timed? || e.Tested? || e.Sent? || e.Failed?
    ensures Sends(w, Add(w, e))
  {
  }

  lemma SendsMeans(a: World, b: World)
    requires Sends(a, b)
    ensures b.shared.ready ==> a.shared.ready && b.shared.generation == a.shared.generation
    ensures WireOn(a.ledger.wire, b.ledger.wire) && a.now <= b.now && (a.shared.quitting ==> b.shared.quitting)
    ensures b.ledger.hand.running == a.ledger.hand.running && a.shared.generation <= b.shared.generation
    ensures b.ledger.hand.run == a.ledger.hand.run
  {
  }

  lemma ProceedsOn()
    ensures forall a, b, c {:trigger Proceeds(a, b), Proceeds(b, c)} ::
      Proceeds(a, b) && Proceeds(b, c) ==> Proceeds(a, c)
    ensures forall a, b {:trigger Sends(a, b)} :: Sends(a, b) ==> Proceeds(a, b)
    ensures forall a, b {:trigger Reaches(a, b)} :: Reaches(a, b) ==> Proceeds(a, b)
  {
  }

  lemma ProceedsMeans(a: World, b: World)
    requires Proceeds(a, b)
    ensures WireOn(a.ledger.wire, b.ledger.wire) && b.ledger.hand.running == a.ledger.hand.running && a.now <= b.now
    ensures a.shared.generation <= b.shared.generation
  {
  }

  lemma WorksOn()
    ensures forall a, b, c {:trigger Works(a, b), Works(b, c)} :: Works(a, b) && Works(b, c) ==> Works(a, c)
    ensures forall a, b {:trigger Proceeds(a, b)} :: Proceeds(a, b) ==> Works(a, b)
    ensures forall a, b {:trigger Reaches(a, b)} :: Reaches(a, b) ==> Works(a, b)
  {
  }

  lemma StillWorks(a: World)
    ensures Works(a, a)
  {
  }

  lemma ReadyIsWalking(s: Shared, v: Seen, l: Ledger)
    requires Inv(s, v, l) && s.ready
    ensures v.action == Walking && (v.client == Controlled || s.quitting)
  {
  }

  lemma WorksMeans(a: World, b: World)
    requires Works(a, b)
    ensures WireOn(a.ledger.wire, b.ledger.wire) && a.ledger.hand.lastStop <= b.ledger.hand.lastStop
    ensures a.now <= b.now && (a.shared.quitting ==> b.shared.quitting)
  {
  }

  // ---------- The sections of service threads ----------

  function Inhibit(s: Shared): Shared {
    s.(ready := false, generation := s.generation + 1, velocity := None)
  }

  predicate Admits(s: Shared, halt: bool, t: Task) {
    && !s.quitting
    && (Prepares(t) ==> s.stops == 0 && !halt)
    && (!Urgent(t) ==> |s.normal| + |s.urgent| < CAPACITY)
  }

  function Accept(s: Shared, t: Task): Shared {
    var base := if Urgent(t) || Prepares(t) then Inhibit(s) else s;
    var job := Job(s.accepted, t, base.generation);
    if Urgent(t) then
      base.(stops := s.stops + 1, urgent := s.urgent + [job], accepted := s.accepted + 1,
            callers := s.callers + {job.id})
    else
      base.(normal := s.normal + [job], accepted := s.accepted + 1)
  }

  lemma PushKeeps(q: seq<Job>, ids: set<nat>, taken: set<nat>, j: Job)
    requires Queue(q, ids, taken) && j.id !in taken
    requires forall i :: i in ids ==> i < j.id
    ensures Queue(q + [j], ids + {j.id}, taken)
  {
    assert (q + [j])[|q|] == j;
    forall i | i in ids + {j.id} && i !in taken ensures Has(q + [j], i) {
      if i != j.id {
        var k :| 0 <= k < |q| && q[k].id == i;
        assert (q + [j])[k].id == i;
      }
    }
  }

  /** Every kind of entry that inhibits; a loss of control is known at the same moment. */
  lemma InhibitKeeps(s: Shared, v: Seen, l: Ledger, st: Stamp)
    requires Inv(s, v, l) && (st.entry.Inhibited? || st.entry.Disabled? || st.entry.Lost?)
    ensures var v' := if st.entry.Lost? then v.(client := Connected) else v;
      Inv(Inhibit(s), v', Apply(l, st)) && Goes(s, l, Inhibit(s), Apply(l, st))
    ensures Apply(l, st).wire == l.wire.(losses := l.wire.losses + (if st.entry.Lost? then 1 else 0),
                                         held := l.wire.held && !st.entry.Lost?,
                                         offs := l.wire.offs + if st.entry.Disabled? then 1 else 0)
  {
  }

  lemma LastIds(s: Shared, v: Seen, l: Ledger)
    requires Inv(s, v, l)
    ensures Queue(s.urgent, l.urgent, l.taken) && Queue(s.normal, l.plain, l.taken) && Books(l) && Tasks(s, l)
    ensures s.stops == |l.waiting| && s.callers == l.waiting && s.answered == l.settled && s.accepted == l.accepted
    ensures VelocityOk(s, l) && Passed(s, l) && s.accepted !in l.taken && s.accepted !in l.waiting
    ensures forall i :: i in l.urgent || i in l.plain ==> i < s.accepted
  {
  }

  lemma BooksGrow(l: Ledger, task: Task, generation: nat, at: int)
    requires Books(l)
    ensures Books(Apply(l, Stamp(at, Accepted(l.accepted, task, generation))))
  {
  }

  /** What the acceptance of a stop writes, field by field. */
  ghost predicate StopAccepted(s: Shared, l: Ledger, s': Shared, l': Ledger, j: Job) {
    && s' == s.(ready := false, generation := s.generation + 1, velocity := None,
         stops := s.stops + 1, urgent := s.urgent + [j], accepted := s.accepted + 1, callers := s.callers + {j.id})
    && l' == l.(clock := l'.clock, accepted := s.accepted + 1, urgent := l.urgent + {j.id},
                waiting := l.waiting + {j.id}, tasks := l.tasks[j.id := j.task],
                gate := Gate(l.gate.generation + 1, false, l'.gate.last, None))
    && j.id == s.accepted && Urgent(j.task) && j.generation == s.generation + 1
  }

  lemma StopAcceptedGoes(s: Shared, l: Ledger, s': Shared, l': Ledger, j: Job)
    requires StopAccepted(s, l, s', l', j)
    ensures Goes(s, l, s', l')
  {
  }

  lemma StopAcceptedAgrees(s: Shared, v: Seen, l: Ledger, s': Shared, l': Ledger, j: Job)
    requires Inv(s, v, l) && StopAccepted(s, l, s', l', j) && Books(l')
    ensures Inv(s', v, l')
  {
    LastIds(s, v, l);
    PushKeeps(s.urgent, l.urgent, l.taken, j);
    AcceptedTasks(s, l, s', l', j);
    Counted(l.waiting, s.accepted);
  }

  lemma AcceptUrgent(s: Shared, v: Seen, l: Ledger, t: Task, at: int)
    requires Inv(s, v, l) && Urgent(t)
    ensures var s', l' := Accept(s, t), Apply(l, Stamp(at, Accepted(s.accepted, t, s.generation + 1)));
      Inv(s', v, l') && Goes(s, l, s', l')
  {
    var j := Job(s.accepted, t, s.generation + 1);
    var s', l' := Accept(s, t), Apply(l, Stamp(at, Accepted(s.accepted, t, s.generation + 1)));
    hide Inv, Books, Goes;
    LastIds(s, v, l);
    BooksGrow(l, t, s.generation + 1, at);
    StopAcceptedGoes(s, l, s', l', j);
    StopAcceptedAgrees(s, v, l, s', l', j);
  }

  lemma Counted(ids: set<nat>, id: nat)
    requires id !in ids
    ensures |ids + {id}| == |ids| + 1
  {
  }

  lemma AcceptedTasks(s: Shared, l: Ledger, s': Shared, l': Ledger, j: Job)
    requires Tasks(s, l) && s'.generation > s.generation && s'.normal == s.normal
    requires s'.urgent == s.urgent + [j] && Urgent(j.task) && j.generation <= s'.generation
    requires l'.tasks == l.tasks[j.id := j.task]
    requires forall k :: 0 <= k < |s.urgent| ==> s.urgent[k].id != j.id
    requires forall k :: 0 <= k < |s.normal| ==> s.normal[k].id != j.id
    ensures Tasks(s', l')
  {
  }

  lemma AcceptPlain(s: Shared, v: Seen, l: Ledger, halt: bool, t: Task, at: int)
    requires Inv(s, v, l)
    requires !Urgent(t) && Admits(s, halt, t)
    ensures var s' := Accept(s, t);
      var l' := Apply(l, Stamp(at, Accepted(s.accepted, t, s'.generation)));
      Inv(s', v, l') && Goes(s, l, s', l')
  {
    var s' := Accept(s, t);
    LastIds(s, v, l);
    PushKeeps(s.normal, l.plain, l.taken, s'.normal[|s.normal|]);
    var l' := Apply(l, Stamp(at, Accepted(s.accepted, t, s'.generation)));
    forall k | 0 <= k < |s'.normal| ensures PlainOk(s', l', s'.normal[k]) {
      if k < |s.normal| { assert PlainOk(s, l, s.normal[k]); }
    }
  }

  lemma AcceptKeeps(s: Shared, v: Seen, l: Ledger, halt: bool, t: Task, s': Shared, st: Stamp)
    requires Inv(s, v, l) && Admits(s, halt, t) && l.clock <= st.at
    requires s' == Accept(s, t) && st.entry == Accepted(s.accepted, t, s'.generation)
    ensures Inv(s', v, Apply(l, st)) && Goes(s, l, s', Apply(l, st)) && EntryFine(0, l, st)
  {
    if Urgent(t) { AcceptUrgent(s, v, l, t, st.at); } else { AcceptPlain(s, v, l, halt, t, st.at); }
    LastIds(s, v, l);
  }

  lemma AcceptedIsHeard(l: Ledger, st: Stamp)
    requires st.entry.Accepted?
    ensures Apply(l, st).wire == l.wire
  {
  }

  /** A velocity command is cached only while motion is enabled, under the mutex. */
  predicate Takes(s: Shared, v: Seen) { s.ready && v.owned && v.connected }

  function Cache(s: Shared, c: Velocity): Shared {
    s.(velocity := Some(c), moves := s.moves + 1)
  }

  lemma CacheKeeps(s: Shared, v: Seen, l: Ledger, c: Velocity)
    requires Inv(s, v, l) && Takes(s, v) && c.id == s.moves && c.generation == s.generation && l.clock <= c.at
    ensures var s', l' := Cache(s, c), Apply(l, Stamp(c.at, Moved(c)));
      Inv(s', v, l') && Goes(s, l, s', l') && EntryFine(0, l, Stamp(c.at, Moved(c)))
  {
  }

  function LeaveCall(s: Shared, id: nat): Shared
    requires s.stops > 0
  {
    s.(stops := s.stops - 1, callers := s.callers - {id})
  }

  lemma BackKeeps(s: Shared, v: Seen, l: Ledger, id: nat, at: int)
    requires Inv(s, v, l) && id in s.callers && id in s.answered && l.clock <= at
    ensures s.stops > 0 && EntryFine(0, l, Stamp(at, Back(id)))
    ensures var s', l' := LeaveCall(s, id), Apply(l, Stamp(at, Back(id))); Inv(s', v, l') && Goes(s, l, s', l')
  {
  }

  lemma QuitKeeps(s: Shared, v: Seen, l: Ledger)
    requires Inv(s, v, l)
    ensures Inv(s.(quitting := true), v, l) && Goes(s, l, s.(quitting := true), l)
  {
  }

  // ---------- The sections of the worker ----------

  lemma PopKeeps(q: seq<Job>, ids: set<nat>, taken: set<nat>)
    requires Queue(q, ids, taken) && q != []
    ensures Queue(q[1..], ids, taken + {q[0].id}) && Earliest(ids, taken, q[0].id)
    ensures forall i :: i in ids && i <= q[0].id ==> i in taken + {q[0].id}
  {
  }

  lemma TakenElsewhere(q: seq<Job>, ids: set<nat>, taken: set<nat>, id: nat)
    requires Queue(q, ids, taken) && id !in ids
    ensures Queue(q, ids, taken + {id})
  {
  }

  /** The urgent queue first: a stop is never overtaken by other work. */
  lemma PopUrgentKeeps(s: Shared, v: Seen, l: Ledger, at: int)
    requires Inv(s, v, l) && l.hand.running == None && s.urgent != [] && l.clock <= at
    ensures var j := s.urgent[0];
      var s', st := s.(urgent := s.urgent[1..]), Stamp(at, Popped(j.id, true, j.task));
      && Inv(s', v, Apply(l, st)) && EntryFine(0, l, st)
      && Urgent(j.task) && !s.ready && j.generation <= s.generation && l.hand.lastStop < j.id
  {
    PopKeeps(s.urgent, l.urgent, l.taken);
    TakenElsewhere(s.normal, l.plain, l.taken, s.urgent[0].id);
  }

  lemma PopPlainTasks(s: Shared, l: Ledger, s': Shared, l': Ledger)
    requires Tasks(s, l) && s.normal != [] && s' == s.(normal := s.normal[1..])
    requires l'.gate == l.gate && l'.tasks == l.tasks
    ensures Tasks(s', l')
  {
    forall k | 0 <= k < |s'.normal| ensures PlainOk(s', l', s'.normal[k]) {
      assert PlainOk(s, l, s.normal[k + 1]);
    }
  }

  lemma PopPlainKeeps(s: Shared, v: Seen, l: Ledger, at: int)
    requires Inv(s, v, l) && l.hand.running == None && s.urgent == [] && s.normal != [] && l.clock <= at
    ensures var j := s.normal[0];
      var s', st := s.(normal := s.normal[1..]), Stamp(at, Popped(j.id, false, j.task));
      Inv(s', v, Apply(l, st)) && EntryFine(0, l, st) && PlainOk(s', Apply(l, st), j)
  {
    var j := s.normal[0];
    var s', l' := s.(normal := s.normal[1..]), Apply(l, Stamp(at, Popped(j.id, false, j.task)));
    assert PlainOk(s, l, j);
    assert l.tasks[j.id] == j.task;
    PopKeeps(s.normal, l.plain, l.taken);
    TakenElsewhere(s.urgent, l.urgent, l.taken, j.id);
    assert forall i :: i in l.urgent && i !in l.taken ==> Has(s.urgent, i);
    PopPlainTasks(s, l, s', l');
    hide Tasks;
  }

  lemma SettleKeeps(s: Shared, v: Seen, l: Ledger, id: nat, how: How, at: int)
    requires Inv(s, v, l) && l.hand.running == Some(id) && l.clock <= at
    requires !how.Drained? && (how.Superseded? ==> !l.hand.urgent)
    requires l.hand.run.Some? && Earned(l.hand.run.value, l.wire, how)
    requires how.Threw? ==> !s.ready && (v.client == Controlled ==> l.wire.latest == Order(EmergencyStopCall))
    ensures var st := Stamp(at, Settled(id, how));
      EntryFine(0, l, st) && Inv(s.(answered := s.answered + {id}), v, Apply(l, st))
  {
  }

  lemma DrainUrgentKeeps(s: Shared, v: Seen, l: Ledger, at: int)
    requires Inv(s, v, l) && l.hand.running == None && s.urgent != [] && l.clock <= at
    ensures var j := s.urgent[0];
      var s', st := s.(urgent := s.urgent[1..], answered := s.answered + {j.id}), Stamp(at, Settled(j.id, Drained));
      EntryFine(0, l, st) && Inv(s', v, Apply(l, st))
  {
    PopKeeps(s.urgent, l.urgent, l.taken);
    TakenElsewhere(s.normal, l.plain, l.taken, s.urgent[0].id);
  }

  lemma DrainPlainKeeps(s: Shared, v: Seen, l: Ledger, at: int)
    requires Inv(s, v, l) && l.hand.running == None && s.normal != [] && l.clock <= at
    ensures var j := s.normal[0];
      var s', st := s.(normal := s.normal[1..], answered := s.answered + {j.id}), Stamp(at, Settled(j.id, Drained));
      EntryFine(0, l, st) && Inv(s', v, Apply(l, st))
  {
    PopKeeps(s.normal, l.plain, l.taken);
    TakenElsewhere(s.urgent, l.urgent, l.taken, s.normal[0].id);
  }

  /** The one place where motion becomes enabled, at the end of a preparation that is still current. */
  lemma EnableKeeps(s: Shared, v: Seen, l: Ledger, at: int)
    requires Inv(s, v, l) && l.hand.running.Some? && Fresh(s, l, l.hand.running.value, s.generation)
    requires v.action == Walking && (v.client == Controlled || s.quitting) && l.clock <= at
    requires l.hand.tested == None && l.wire.latest != Drive
    ensures var st := Stamp(at, Enabled(s.generation));
      EntryFine(0, l, st) && Inv(s.(ready := true, velocity := None), v, Apply(l, st))
  {
  }

  /** The worker copies the cached velocity, which has not failed unless it is the one that failed last. */
  lemma CopyKeeps(s: Shared, v: Seen, l: Ledger, at: int)
    requires Inv(s, v, l) && s.velocity.Some? && l.hand.running == None && l.clock <= at
    ensures var c := s.velocity.value; var st := Stamp(at, Read(c));
      && EntryFine(0, l, st) && Inv(s, v, Apply(l, st)) && c.id < s.moves && s.ready && c.generation == s.generation
      && (c.id in l.hand.failed ==> l.gate.failing.Some? && l.gate.failing.value.id == c.id)
      && (l.hand.copy.Some? ==> l.hand.copy == Some(c) || l.hand.copy.value.id < c.id)
  {
  }

  /** Its clock reading and its tests leave everything but the worker's hand alone. */
  lemma HandKeeps(s: Shared, v: Seen, l: Ledger, st: Stamp)
    requires Inv(s, v, l) && (st.entry.Timed? || st.entry.Tested?)
    ensures Inv(s, v, Apply(l, st))
  {
  }

  /** A velocity on the wire, newer than the one that failed last, if any. */
  lemma SentKeeps(s: Shared, v: Seen, l: Ledger, c: Velocity, at: int)
    requires Inv(s, v, l) && l.hand.copy == Some(c) && c.id !in l.hand.failed
    requires l.gate.failing.Some? ==> l.gate.failing.value.id < c.id
    ensures Inv(s, v, Apply(l, Stamp(at, Sent(c))))
  {
  }

  /** One that did not get through. */
  lemma FailedKeeps(s: Shared, v: Seen, l: Ledger, c: Velocity, at: int)
    requires Inv(s, v, l) && l.gate.failing == None && l.hand.copy == Some(c)
    ensures Inv(s, v, Apply(l, Stamp(at, Failed(c))))
  {
  }

  lemma DropKeeps(s: Shared, v: Seen, l: Ledger)
    requires Inv(s, v, l)
    ensures Inv(s.(velocity := None), v, l) && Goes(s, l, s.(velocity := None), l)
  {
  }

  /** A command on the wire. */
  lemma IssuedKeeps(s: Shared, v: Seen, l: Ledger, rpc: Rpc, at: int)
    requires Inv(s, v, l)
    ensures var l' := Apply(l, Stamp(at, Issued(rpc)));
      Inv(s, v, l') && Goes(s, l, s, l') && l'.wire == Place(l.wire, rpc)
  {
  }

  /** A motion report: field and log change together. */
  lemma ReportedKeeps(s: Shared, v: Seen, l: Ledger, v': Seen, at: int)
    requires Inv(s, v, l) && v'.client == v.client
    requires s.ready ==> v'.action == Walking && (v'.client == Controlled || s.quitting)
    requires v'.action == EmergencyStop ==> v'.latched
    ensures var l' := Apply(l, Stamp(at, Reported(v'.action)));
      Inv(s, v', l') && Goes(s, l, s, l') && l'.wire == Listen(l.wire, v'.action)
  {
  }

  lemma SeenKeeps(s: Shared, v: Seen, l: Ledger, v': Seen)
    requires Inv(s, v, l) && v'.action == v.action
    requires v.latched ==> v'.latched || v.action != EmergencyStop
    requires v'.client == Controlled <==> v.client == Controlled
    ensures Inv(s, v', l)
  {
  }

  /** With empty queues and nothing running, every job ever accepted has its result. */
  lemma AllSettled(s: Shared, v: Seen, l: Ledger)
    requires Inv(s, v, l) && s.urgent == [] && s.normal == [] && l.hand.running == None
    ensures forall i :: 0 <= i < s.accepted ==> i in l.settled
  {
  }

  /** Stops up to the last one popped have their results, once nothing runs. */
  lemma PoppedAreSettled(s: Shared, v: Seen, l: Ledger, id: nat)
    requires Inv(s, v, l) && l.hand.running == None && id in l.urgent && id <= l.hand.lastStop
    ensures id in l.settled
  {
  }
}
