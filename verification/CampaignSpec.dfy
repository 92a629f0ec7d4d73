/** The campaign's append and open (internal/campaign/campaign.go), on values:
    validate, fan out, persist, apply live; and rebuild from what is stored. */
module CampaignSpec {
  import opened Contract
  import opened Fold
  import opened CharacterLogs

  /** A campaign and the store behind it. `logs` is what it holds in memory of the
      stored character logs `chars`. */
  datatype Camp<+D> = Camp(world: seq<Envelope>, chars: map<Text, seq<CharEntry>>, state: State, head: int,
                           logs: map<Text, Log<D>>, discarded: nat, poisoned: bool)

  datatype Error = IsPoisoned | EmptyBatch | UnknownPayload | EventRefused | FanOutDiverged | NotStored | LiveDiverged

  datatype Result = Appended(first: int) | Failed(error: Error)

  function NewCamp<D>(): Camp<D> { Camp([], map[], NewState, 0, map[], 0, false) }

  function MaxWorldSeq(world: seq<Envelope>): int { if world == [] then 0 else world[|world| - 1].sequence }

  /** The session id the server writes: a drawn one for a SessionStarted, else the open session's or none. */
  function SessionIdFor(env: Envelope, drawn: Text, st: State): Text {
    if env.payload.SessionStarted? then drawn
    else
      var open := OpenSession(st);
      if open.Some? then open.value.id else []
  }

  /** The envelopes as validation leaves them, at their sequences after head, and
      the state they fold to; None when one does not fold. */
  function Validate(st: State, head: int, envs: seq<Envelope>, drawn: seq<Text>): (r: Option<(seq<Envelope>, State)>)
    requires |drawn| == |envs|
    ensures r.Some? ==> |r.value.0| == |envs|
  {
    if envs == [] then Some(([], st))
    else
      var n := |envs| - 1;
      match Validate(st, head, envs[..n], drawn[..n])
      case None => None
      case Some((done, snap)) =>
        var env := envs[n].(sessionId := SessionIdFor(envs[n], drawn[n], snap), sequence := head + n + 1);
        match Step(snap, env)
        case Accepted(next) => Some((done + [env], next))
        case _ => None
  }

  /** The live state after a persisted batch, and whether all of it applied. */
  function Live(st: State, evs: seq<Envelope>): (State, bool) {
    if evs == [] then (st, true)
    else
      var (mid, ok) := Live(st, evs[..|evs| - 1]);
      if !ok then (mid, false)
      else
        match Step(mid, evs[|evs| - 1])
        case Accepted(next) => (next, true)
        case _ => (mid, false)
  }

  /** What the store itself refuses. */
  predicate StoreTakes(envs: seq<Envelope>, entries: seq<Entry>) {
    && (forall k :: 0 <= k < |envs| ==> envs[k].sequence == 0)
    && (forall k :: 0 <= k < |entries| ==>
          entries[k].env.sequence == 0 && entries[k].actorId != [] && -1 <= entries[k].cause < |envs|)
  }

  /** Every active decision resumed from its log, for an append that did not land. */
  function RestartLogs<D>(p: Perception<D>, logs: map<Text, Log<D>>, st: State): map<Text, Log<D>> {
    map id | id in logs ::
      if logs[id].decision.Some? then logs[id].(decision := Some(p.resume(id, logs[id].fold, st))) else logs[id]
  }

  function Restart<D>(p: Perception<D>, c: Camp<D>): Camp<D> { c.(logs := RestartLogs(p, c.logs, c.state)) }

  /** A batch that landed: its first sequence is after the store's last. */
  function Commit<D>(c: Camp<D>, stamped: seq<Envelope>, f: Fan<D>): (Camp<D>, Result) {
    var first := MaxWorldSeq(c.world) + 1;
    var persisted := Stamp(stamped, first - 1);
    var (state, ok) := Live(c.state, persisted);
    (Camp(c.world + persisted, StoreAll(c.chars, f.entries, first), state, first + |stamped| - 1,
          f.logs, c.discarded + f.dropped, !ok),
     if ok then Appended(first) else Failed(LiveDiverged))
  }

  /** AppendBatch; `drawn` are the session ids drawn for it, and `lands` whether the
      store's transaction commits. Append is a batch of one. */
  function Append<D>(p: Perception<D>, c: Camp<D>, envs: seq<Envelope>, drawn: seq<Text>, lands: bool): (Camp<D>, Result)
    requires |drawn| == |envs|
  {
    if c.poisoned then (c, Failed(IsPoisoned))
    else if envs == [] then (c, Failed(EmptyBatch))
    else if exists e :: e in envs && e.payload.NoPayload? then (c, Failed(UnknownPayload))
    else
      match Validate(c.state, c.head, envs, drawn)
      case None => (c, Failed(EventRefused))
      case Some((stamped, _)) =>
        match FanEvents(p, c.logs, c.state, stamped)
        case None => (Restart(p, c), Failed(FanOutDiverged))
        case Some((f, _)) =>
          if !lands || !StoreTakes(envs, f.entries) then (Restart(p, c), Failed(NotStored))
          else Commit(c, stamped, f)
  }

  // ----- open -----

  predicate MemberAt(world: seq<Envelope>, id: Text) {
    Replay(world).Some? && Member(Replay(world).value, id)
  }

  /** The world events after which id turns party member (resumeScan). */
  function Found(world: seq<Envelope>, id: Text): seq<int> {
    if world == [] then []
    else
      var init := world[..|world| - 1];
      Found(init, id) + (if !MemberAt(init, id) && MemberAt(world, id) then [world[|world| - 1].sequence] else [])
  }

  /** One stored log refolded. */
  function Rebuilt<D>(p: Perception<D>, id: Text, stored: seq<CharEntry>, st: State, world: seq<Envelope>): Log<D>
    requires Replay(EnvsOf(stored)).Some?
  {
    var fold := Replay(EnvsOf(stored)).value;
    Log(fold, MaxSeq(stored), if Member(st, id) then Some(p.resume(id, fold, st)) else None,
        CausedOf(stored), Found(world, id))
  }

  /** Open; None when a stored log does not fold. */
  function Reopen<D>(p: Perception<D>, world: seq<Envelope>, chars: map<Text, seq<CharEntry>>): Option<Camp<D>> {
    if Replay(world).None? || (exists id :: id in chars && Replay(EnvsOf(chars[id])).None?) then None
    else
      var st := Replay(world).value;
      Some(Camp(world, chars, st, MaxWorldSeq(world),
                map id | id in chars :: Rebuilt(p, id, chars[id], st, world), 0, false))
  }

  // ----- runs -----

  /** One step of a campaign's life, each with its own arbitrary perception. */
  datatype Op<!D> =
    | AppendOp(p: Perception<D>, envs: seq<Envelope>, drawn: seq<Text>, lands: bool)
    | ReopenOp(p: Perception<D>)

  predicate OpOk<D>(op: Op<D>) { op.AppendOp? ==> |op.drawn| == |op.envs| }

  function Do<D>(c: Camp<D>, op: Op<D>): Camp<D>
    requires OpOk(op)
  {
    match op
    case AppendOp(p, envs, drawn, lands) => Append(p, c, envs, drawn, lands).0
    case ReopenOp(p) => (match Reopen(p, c.world, c.chars) case Some(r) => r case None => c)
  }

  /** The campaign after a run from an empty directory. */
  function Run<D>(ops: seq<Op<D>>): Camp<D>
    requires forall k :: 0 <= k < |ops| ==> OpOk(ops[k])
  {
    if ops == [] then NewCamp() else Do(Run(ops[..|ops| - 1]), ops[|ops| - 1])
  }
}
