/** Open as it runs (campaign.go's rebuildLocked and foldEvents, fanout.go's
    resumeScan and loadCharacterLogsLocked): the campaign rebuilt from its store,
    proved to be CampaignSpec.Reopen. */
module CampaignOpen {
  import opened Contract
  import opened GoHeap
  import opened CharacterLogs
  import opened CampaignSpec
  import opened FanOut
  import opened Campaign
  import opened CampaignInvariant
  import opened CampaignTheorems
  import Fold

  // ----- the one fold -----

  lemma {:induction false} ReplayStops(evs: seq<Envelope>, n: nat)
    requires n <= |evs| && Fold.Replay(evs[..n]).None?
    ensures Fold.Replay(evs).None?
  {
    hide Fold.Step;
    if n < |evs| {
      assert evs[..|evs| - 1][..n] == evs[..n];
      ReplayStops(evs[..|evs| - 1], n);
    } else {
      assert evs[..n] == evs;
    }
  }

  /** The resumes a slice map says of an actor. */
  function AtOf(at: map<Text, Slice<int>>, id: Text): Slice<int> { if id in at then at[id] else Nil }

  /** resumeScan: which stored logs' actors are party members, and the events after
      which each turned one. */
  class ResumeScan {
    var member: map<Text, bool>
    var at: map<Text, Slice<int>>
    ghost var own: set<object>

    constructor (ids: set<Text>)
      ensures Valid() && fresh(own) && member.Keys == ids && Says([])
    {
      member, at, own := map id | id in ids :: false, map[], {};
      new;
      assert Fold.Replay([]) == Some(Fold.NewState);
    }

    ghost predicate Valid()
      reads this, own
    {
      && this !in own && at.Keys <= member.Keys
      && forall id :: id in at ==> Backing(at[id]) <= own && SliceOk(at[id]) && SliceIs(at[id], RESUMES, id)
    }

    ghost predicate SaysOf(id: Text, world: seq<Envelope>)
      requires Valid() && id in member
      reads this, own
    {
      member[id] == MemberAt(world, id) && View(AtOf(at, id)) == Found(world, id)
    }

    /** It has observed exactly this world log. */
    ghost predicate Says(world: seq<Envelope>)
      requires Valid()
      reads this, own
    {
      forall id :: id in member ==> SaysOf(id, world)
    }

    /** observe, after the state st the log folds to with ev its last event. */
    method Observe(st: Fold.State, ev: Envelope, ghost world: seq<Envelope>)
      requires Valid() && Says(world) && Fold.Replay(world + [ev]) == Some(st)
      modifies this, own
      ensures Valid() && Says(world + [ev]) && member.Keys == old(member.Keys)
      ensures own >= old(own) && fresh(own - old(own))
    {
      hide MemberAt, Found, Fold.Replay;
      var todo := member.Keys;
      while todo != {}
        invariant todo <= member.Keys == old(member.Keys) && Valid()
        invariant own >= old(own) && fresh(own - old(own))
        invariant forall id :: id in todo ==> SaysOf(id, world)
        invariant forall id :: id in member && id !in todo ==> SaysOf(id, world + [ev])
        decreases todo
      {
        var id :| id in todo;
        FoundLast(world, ev, id);
        MemberIs(world + [ev], id);
        assert SaysOf(id, world);
        ghost var said := map k | k in member :: (member[k], View(AtOf(at, k)));
        ObserveOne(id, CharacterLogs.Member(st, id), ev.sequence);
        forall k | k in member && k != id
          ensures k in todo ==> SaysOf(k, world)
          ensures k !in todo ==> SaysOf(k, world + [ev])
        {
          assert said[k] == (member[k], View(AtOf(at, k)));
        }
        assert SaysOf(id, world + [ev]);
        todo := todo - {id};
      }
    }

    method ObserveOne(id: Text, now: bool, sequence: int)
      requires Valid() && id in member
      modifies this, own
      ensures Valid() && member.Keys == old(member.Keys)
      ensures own >= old(own) && fresh(own - old(own))
      ensures member[id] == now
      ensures View(AtOf(at, id)) == old(View(AtOf(at, id))) + (if now && !old(member[id]) then [sequence] else [])
      ensures forall k :: k in member && k != id ==> member[k] == old(member[k]) && View(AtOf(at, k)) == old(View(AtOf(at, k)))
    {
      if now && !member[id] {
        Grow(id, sequence);
      }
      member := member[id := now];
    }

    method Grow(id: Text, sequence: int)
      requires Valid() && id in member
      modifies this`at, this`own, own
      ensures Valid() && own >= old(own) && fresh(own - old(own))
      ensures View(AtOf(at, id)) == old(View(AtOf(at, id))) + [sequence]
      ensures forall k :: k in member && k != id ==> View(AtOf(at, k)) == old(View(AtOf(at, k)))
    {
      var had := AtOf(at, id);
      assert forall k :: k in at && k != id ==> Backing(at[k]) !! Backing(had);
      var s := GoHeap.Append(had, sequence, RESUMES, id);
      forall k | k in at && k != id ensures SliceOk(at[k]) && View(at[k]) == old(View(at[k])) {
        assert at[k].Slice? ==> unchanged(at[k].back);
      }
      own := own + Backing(s);
      at := at[id := s];
    }
  }

  lemma {:induction false} FoundLast(world: seq<Envelope>, ev: Envelope, id: Text)
    ensures Found(world + [ev], id) == Found(world, id)
              + (if !MemberAt(world, id) && MemberAt(world + [ev], id) then [ev.sequence] else [])
  {
    assert (world + [ev])[..|world|] == world;
  }

  lemma {:induction false} MemberIs(world: seq<Envelope>, id: Text)
    requires Fold.Replay(world).Some?
    ensures MemberAt(world, id) == CharacterLogs.Member(Fold.Replay(world).value, id)
  {
  }

  /** foldEvents over the world log, each event it applies handed to the scan; an
      event of no known kind is skipped, and not observed. */
  method FoldWorld(world: seq<Envelope>, scan: ResumeScan) returns (ok: bool, st: Fold.State)
    requires scan.Valid() && scan.Says([])
    modifies scan, scan.own
    ensures ok <==> Fold.Replay(world).Some?
    ensures ok ==> st == Fold.Replay(world).value && scan.Valid() && scan.Says(world) && scan.member.Keys == old(scan.member.Keys)
    ensures scan.own >= old(scan.own) && fresh(scan.own - old(scan.own))
  {
    hide Fold.Step, MemberAt, Found;
    st := Fold.NewState;
    var k := 0;
    while k < |world|
      invariant 0 <= k <= |world| && Fold.Replay(world[..k]) == Some(st)
      invariant scan.Valid() && scan.Says(world[..k]) && scan.member.Keys == old(scan.member.Keys)
      invariant scan.own >= old(scan.own) && fresh(scan.own - old(scan.own))
    {
      assert world[..k + 1][..k] == world[..k] && world[..k + 1] == world[..k] + [world[k]];
      match Fold.Step(st, world[k]) {
        case Accepted(next) =>
          st := next;
          scan.Observe(st, world[k], world[..k]);
        case UnknownVariant =>
          SaysSkipped(scan, world[..k], world[k]);
        case Refused =>
          ReplayStops(world, k + 1);
          return false, st;
      }
      k := k + 1;
    }
    assert world[..k] == world;
    ok := true;
  }

  lemma {:induction false} SaysSkipped(scan: ResumeScan, world: seq<Envelope>, ev: Envelope)
    requires scan.Valid() && scan.Says(world) && Fold.Replay(world).Some? && Fold.Replay(world + [ev]) == Fold.Replay(world)
    ensures scan.Says(world + [ev])
  {
    hide Fold.Replay, Found;
    forall id | id in scan.member ensures scan.SaysOf(id, world + [ev]) {
      assert scan.SaysOf(id, world);
      FoundLast(world, ev, id);
    }
  }

  /** foldEvents over one stored log. */
  method FoldLog(evs: seq<Envelope>) returns (ok: bool, st: Fold.State)
    ensures ok <==> Fold.Replay(evs).Some?
    ensures ok ==> st == Fold.Replay(evs).value
  {
    hide Fold.Step;
    st := Fold.NewState;
    var k := 0;
    while k < |evs|
      invariant 0 <= k <= |evs| && Fold.Replay(evs[..k]) == Some(st)
    {
      assert evs[..k + 1][..k] == evs[..k];
      match Fold.Step(st, evs[k]) {
        case Accepted(next) => st := next;
        case UnknownVariant =>
        case Refused =>
          ReplayStops(evs, k + 1);
          return false, st;
      }
      k := k + 1;
    }
    assert evs[..k] == evs;
    ok := true;
  }

  /** record over one stored log: a row for every entry a world event caused. */
  method RecordStored(stored: seq<CharEntry>, ghost id: Text) returns (s: Slice<Caused>)
    ensures SliceOk(s) && SliceIs(s, CAUSED, id) && View(s) == CausedOf(stored) && fresh(Backing(s))
  {
    s := Nil;
    var k := 0;
    while k < |stored|
      invariant 0 <= k <= |stored|
      invariant SliceOk(s) && SliceIs(s, CAUSED, id) && View(s) == CausedOf(stored[..k]) && fresh(Backing(s))
    {
      assert stored[..k + 1][..k] == stored[..k];
      if stored[k].worldSeq != 0 {
        s := GoHeap.Append(s, Caused(stored[k].worldSeq, stored[k].env.sequence), CAUSED, id);
      }
      k := k + 1;
    }
    assert stored[..k] == stored;
  }

  /** One stored log loaded; null when it does not fold. */
  method LoadLog<D>(p: Perception<D>, id: Text, stored: seq<CharEntry>, resumes: Slice<int>, st: Fold.State,
                    ghost world: seq<Envelope>, ghost own: set<object>)
    returns (l: CharacterLog?<D>, ghost own': set<object>)
    requires stored != [] && SliceOk(resumes) && SliceIs(resumes, RESUMES, id) && View(resumes) == Found(world, id)
    requires Backing(resumes) <= own
    ensures l == null <==> Fold.Replay(EnvsOf(stored)).None?
    ensures l != null ==> fresh(l) && l.Ok() && l.id == id && l.Value() == Rebuilt(p, id, stored, st, world)
                          && l in own' && l.Cells() <= own'
    ensures own <= own' && fresh(own' - own)
  {
    hide Fold.Replay, CausedOf, Found;
    own' := own;
    var ok, fold := FoldLog(EnvsOf(stored));
    if !ok { return null, own; }
    var caused := RecordStored(stored, id);
    var decision: Projection?<D> := null;
    if CharacterLogs.Member(st, id) {
      decision := new Projection(id, p.resume(id, fold, st));
    }
    l := new CharacterLog(id, fold, stored[|stored| - 1].env.sequence, decision, caused, resumes);
    own' := own + l.Cells();
  }

  /** What a scan found, log by log, before any log is loaded. */
  ghost predicate Resumes(at: map<Text, Slice<int>>, world: seq<Envelope>, ids: set<Text>, own: set<object>)
    reads own
  {
    forall id :: id in ids ==> ResumesOf(AtOf(at, id), id, world, own)
  }

  ghost predicate ResumesOf(s: Slice<int>, id: Text, world: seq<Envelope>, own: set<object>)
    reads own
  {
    Backing(s) <= own && SliceOk(s) && SliceIs(s, RESUMES, id) && View(s) == Found(world, id)
  }

  /** loadCharacterLogsLocked. */
  method LoadLogs<D>(p: Perception<D>, chars: map<Text, seq<CharEntry>>, at: map<Text, Slice<int>>, st: Fold.State,
                     ghost world: seq<Envelope>, ghost own: set<object>)
    returns (ok: bool, logs: map<Text, CharacterLog<D>>, ghost own': set<object>)
    requires Resumes(at, world, chars.Keys, own) && forall id :: id in chars ==> chars[id] != []
    ensures ok <==> forall id :: id in chars ==> Fold.Replay(EnvsOf(chars[id])).Some?
    ensures ok ==> LogsOwn(logs, own') && Logs(logs, own') == map id | id in chars :: Rebuilt(p, id, chars[id], st, world)
    ensures own <= own' && fresh(own' - own)
  {
    hide Fold.Replay, Found, Rebuilt, ResumesOf, CharacterLog.Ok, CharacterLog.Value, CharacterLog.Cells;
    logs, own', ok := map[], own, true;
    var todo := chars.Keys;
    while todo != {}
      invariant todo <= chars.Keys && logs.Keys == chars.Keys - todo
      invariant Resumes(at, world, chars.Keys, own) && own <= own' && fresh(own' - own)
      invariant forall id :: id in chars && id !in todo ==> Fold.Replay(EnvsOf(chars[id])).Some?
      invariant LogsOwn(logs, own')
      invariant forall id :: id in logs ==> logs[id].Value() == Rebuilt(p, id, chars[id], st, world)
      decreases todo
    {
      var id :| id in todo;
      ResumesAre(AtOf(at, id), id, world, own, own');
      var l: CharacterLog?<D>;
      l, own' := LoadLog(p, id, chars[id], AtOf(at, id), st, world, own');
      if l == null { return false, logs, own'; }
      logs := logs[id := l];
      todo := todo - {id};
    }
  }

  lemma {:induction false} ResumesAre(s: Slice<int>, id: Text, world: seq<Envelope>, own: set<object>, wide: set<object>)
    requires ResumesOf(s, id, world, own) && own <= wide
    ensures Backing(s) <= wide && SliceOk(s) && SliceIs(s, RESUMES, id) && View(s) == Found(world, id)
  {
  }

  /** Open over a store: the campaign CampaignSpec.Reopen says, or null exactly when the
      stored logs do not fold. No log in a store is empty: a log is its rows. */
  method Open<D>(p: Perception<D>, log: Store) returns (c: Campaign?<D>)
    requires forall id :: id in log.chars ==> log.chars[id] != []
    ensures c == null <==> Reopen(p, log.world, log.chars).None?
    ensures c != null ==> fresh(c) && c.log == log && c.Valid() && fresh(c.own) && c.Value() == Reopen(p, log.world, log.chars).value
  {
    hide Fold.Replay, Found, Rebuilt, LogsOwn, Logs;
    var scan := new ResumeScan(log.chars.Keys);
    var ok, st := FoldWorld(log.world, scan);
    if !ok { return null; }
    ScanResumes(scan, log.world);
    var folds, logs, own := LoadLogs(p, log.chars, scan.at, st, log.world, scan.own);
    if !folds { return null; }
    c := new Campaign(log, st, MaxWorldSeq(log.world), logs, own);
  }

  lemma {:induction false} ScanResumes(scan: ResumeScan, world: seq<Envelope>)
    requires scan.Valid() && scan.Says(world)
    ensures Resumes(scan.at, world, scan.member.Keys, scan.own)
  {
    hide Found, MemberAt;
    forall id | id in scan.member ensures ResumesOf(AtOf(scan.at, id), id, world, scan.own) {
      assert scan.SaysOf(id, world);
    }
  }

  /** A whole life of a campaign on the heap, from an empty directory through appends,
      failed appends and reopenings: at every point it says what the run on values
      says, so the run theorems are this campaign's. */
  method RunOn<D>(ops: seq<Op<D>>) returns (c: Campaign<D>)
    requires forall k :: 0 <= k < |ops| ==> OpOk(ops[k])
    ensures c.Valid() && c.Value() == Run(ops)
  {
    hide Inv, Logs, LogsOwn, Ready, CampaignSpec.Append, Reopen;
    var log := new Store();
    c := new Campaign(log, Fold.NewState, 0, map[], {});
    EmptyLogs<D>();
    var k := 0;
    while k < |ops|
      invariant 0 <= k <= |ops| && fresh(c) && fresh(c.log) && c.Valid() && fresh(c.own)
      invariant c.Value() == Run(ops[..k])
    {
      var op := ops[k];
      assert ops[..k + 1][..k] == ops[..k];
      RunInv(ops[..k]);
      match op {
        case AppendOp(p, envs, drawn, commits) =>
          CampaignIsReady(p, c.Value(), envs, drawn);
          StructsOwned(c.logs, c.own);
          var r := c.AppendBatch(p, envs, drawn, commits);
        case ReopenOp(p) =>
          ReopenKeeps(p, c.Value());
          InvKept(c.Value());
          c := Open(p, c.log);
      }
      k := k + 1;
    }
    assert ops[..k] == ops;
  }

  lemma {:induction false} EmptyLogs<D>()
    ensures LogsOwn<D>(map[], {}) && Logs<D>(map[], {}) == map[] && Run<D>([]) == NewCamp()
  {
  }

  lemma {:induction false} InvKept<D>(c: Camp<D>)
    requires Inv(c)
    ensures forall id :: id in c.chars ==> c.chars[id] != []
  {
  }

  lemma {:induction false} StructsOwned<D>(logs: map<Text, CharacterLog<D>>, own: set<object>)
    requires LogsOwn(logs, own)
    ensures Decisions(logs) <= own && forall id :: id in logs ==> logs[id] in own
  {
  }
}
