/** What a browser was last told: the log it dials, who is at the table and whom it may
    watch, read off the events of a run that its own socket delivered. */
module LastHeard {
  import opened Contract
  import opened Connection
  import Fold

  /** How many sockets a run dialled. */
  function Dials(inputs: seq<Input>): nat {
    if inputs == [] then 0
    else Dials(inputs[..|inputs| - 1]) + if inputs[|inputs| - 1].Connect? || inputs[|inputs| - 1].Reconnect? then 1 else 0
  }

  /** The frame a run's last input delivers, when it is of the socket dialled last. */
  function Heard(inputs: seq<Input>): Option<Frame>
    requires inputs != []
  {
    var i, dials := inputs[|inputs| - 1], Dials(inputs[..|inputs| - 1]);
    if i.Message? && i.sock + 1 == dials then Some(i.frame) else None
  }

  /** The socket held is the one dialled last. */
  lemma {:induction false} HoldsLastDialled(worldSeat: bool, remembered: Option<Text>, inputs: seq<Input>)
    ensures var c := Run(worldSeat, remembered, inputs).client;
            c.dials == Dials(inputs) && c.ws == if Dials(inputs) == 0 then None else Some(Dials(inputs) - 1)
  {
    if inputs != [] {
      hide Dialled, Ingest, At, Others, Ended, HereAll, RequestId;
      var init, i := inputs[..|inputs| - 1], inputs[|inputs| - 1];
      HoldsLastDialled(worldSeat, remembered, init);
      SocketsAre(Run(worldSeat, remembered, init).client, i);
    }
  }

  lemma {:induction false} SocketsAre(c: Client, i: Input)
    ensures var r := Advance(c, i);
            if i.Connect? || i.Reconnect? then r.ws == Some(c.dials) && r.dials == c.dials + 1
            else r.ws == c.ws && r.dials == c.dials
  {
    hide At, Others, Ended, HereAll, RequestId, Fold.Replay;
  }

  /** A run's last step, when the socket held hears something, and when it does not. */
  lemma {:induction false} LastStep(worldSeat: bool, remembered: Option<Text>, inputs: seq<Input>)
    requires inputs != []
    ensures var c, r := Run(worldSeat, remembered, inputs[..|inputs| - 1]).client, Run(worldSeat, remembered, inputs).client;
            if Heard(inputs).Some? then r == Handle(c, Heard(inputs).value)
            else (r.log, r.present, r.watch, r.none) == (c.log, c.present, c.watch, c.none)
  {
    hide Handle, At, Others, Ended, HereAll, RequestId;
    HoldsLastDialled(worldSeat, remembered, inputs[..|inputs| - 1]);
  }

  // ----- the log -----

  /** The log last named to the browser. */
  function LastTold(inputs: seq<Input>): Option<Text> {
    if inputs == [] then None
    else
      match Heard(inputs)
      case Some(ViewpointChanged(actorId)) => Some(actorId)
      case _ => LastTold(inputs[..|inputs| - 1])
  }

  lemma {:induction false} LogIsLastTold(worldSeat: bool, remembered: Option<Text>, inputs: seq<Input>)
    ensures Run(worldSeat, remembered, inputs).client.log == LastTold(inputs)
  {
    hide Handle;
    if inputs != [] {
      LogIsLastTold(worldSeat, remembered, inputs[..|inputs| - 1]);
      LastStep(worldSeat, remembered, inputs);
      if Heard(inputs).Some? {
        HandleLog(Run(worldSeat, remembered, inputs[..|inputs| - 1]).client, Heard(inputs).value);
      }
    }
  }

  lemma {:induction false} HandleLog(c: Client, f: Frame)
    ensures Handle(c, f).log == match f case ViewpointChanged(actorId) => Some(actorId) case _ => c.log
  {
    hide HereAll, At, Fold.Replay;
  }

  /** A dial asks for the log last named to the browser, before any was named the one it
      remembers, and for none when that is nobody's; it carries the cursor. */
  lemma {:induction false} DialAsksForLog(worldSeat: bool, remembered: Option<Text>, inputs: seq<Input>, again: bool)
    ensures var told, r := LastTold(inputs), Run(worldSeat, remembered, inputs + [if again then Reconnect else Connect]);
            && r.client.log == told && r.client.lastSeq == Run(worldSeat, remembered, inputs).client.lastSeq
            && (worldSeat ==> r.feed == Feeding(None, r.client.lastSeq + 1))
            && (!worldSeat ==>
                  && r.feed.Opening? && r.feed.cursor == r.client.lastSeq
                  && (told.Some? && told.value != [] ==> r.feed.named == told)
                  && (told == Some([]) ==> r.feed.named.None?)
                  && (told.None? && remembered != Some([]) ==> r.feed.named == remembered)
                  && (told.None? && remembered == Some([]) ==> r.feed.named.None?))
  {
    LogIsLastTold(worldSeat, remembered, inputs);
    var all := inputs + [if again then Reconnect else Connect];
    assert all[..|all| - 1] == inputs;
  }

  // ----- who is at the table -----

  /** What a batch last says of a participant: here under a name, gone, or nothing. */
  datatype Word = Here(name: Text) | Gone | Silent

  function WordOf(batch: seq<Presence>, who: Text): Word {
    if batch == [] then Silent
    else
      var p := batch[|batch| - 1];
      if p.participantId != who || p.state == Unspecified then WordOf(batch[..|batch| - 1], who)
      else if p.state == Connected then Here(p.displayName) else Gone
  }

  function Told(w: Word, before: Option<Text>): Option<Text> {
    match w
    case Here(name) => Some(name)
    case Gone => None
    case Silent => before
  }

  /** The name a participant is here under: what the last presence event about it said
      since the last snapshot, which starts the table over. */
  function LastPresence(inputs: seq<Input>, who: Text): Option<Text> {
    if inputs == [] then None
    else
      match Heard(inputs)
      case Some(PresenceSnapshot(all)) => Told(WordOf(all, who), None)
      case Some(PresenceChanged(one)) => Told(WordOf([one], who), LastPresence(inputs[..|inputs| - 1], who))
      case _ => LastPresence(inputs[..|inputs| - 1], who)
  }

  function Name(present: map<Text, Text>, who: Text): Option<Text> { if who in present then Some(present[who]) else None }

  lemma {:induction false} BatchTells(present: map<Text, Text>, batch: seq<Presence>, who: Text)
    ensures Name(HereAll(present, batch), who) == Told(WordOf(batch, who), Name(present, who))
  {
    if batch != [] {
      BatchTells(present, batch[..|batch| - 1], who);
    }
  }

  lemma {:induction false} HandlePresence(c: Client, f: Frame, who: Text)
    ensures Name(Handle(c, f).present, who) ==
              match f
              case PresenceSnapshot(all) => Told(WordOf(all, who), None)
              case PresenceChanged(one) => Told(WordOf([one], who), Name(c.present, who))
              case _ => Name(c.present, who)
  {
    hide At, HereAll, WordOf, Fold.Replay;
    match f
    case PresenceSnapshot(all) => BatchTells(map[], all, who);
    case PresenceChanged(one) =>
      BatchTells(c.present, [one], who);
      OneIsBatch(c.present, one);
    case _ =>
  }

  lemma {:induction false} OneIsBatch(present: map<Text, Text>, one: Presence)
    ensures HereAll(present, [one]) == Connection.Here(present, one)
  {
    assert [one][..0] == [];
    assert HereAll(present, []) == present;
  }

  /** A participant is at the table exactly when the last word about it since the last
      snapshot was that it connected, and under the name that said. */
  lemma {:induction false} PresenceIsLastWord(worldSeat: bool, remembered: Option<Text>, inputs: seq<Input>, who: Text)
    ensures Name(Run(worldSeat, remembered, inputs).client.present, who) == LastPresence(inputs, who)
  {
    hide Handle, WordOf;
    if inputs != [] {
      PresenceIsLastWord(worldSeat, remembered, inputs[..|inputs| - 1], who);
      LastStep(worldSeat, remembered, inputs);
      if Heard(inputs).Some? {
        HandlePresence(Run(worldSeat, remembered, inputs[..|inputs| - 1]).client, Heard(inputs).value, who);
      }
    }
  }

  // ----- whom to watch -----

  /** The set of whom to watch last sent, and whether it said none. */
  function LastWatch(inputs: seq<Input>): (seq<Watchable>, bool) {
    if inputs == [] then ([], false)
    else
      match Heard(inputs)
      case Some(WatchableChanged(actors, none)) => (actors, none)
      case _ => LastWatch(inputs[..|inputs| - 1])
  }

  lemma {:induction false} WatchIsLastSent(worldSeat: bool, remembered: Option<Text>, inputs: seq<Input>)
    ensures var c := Run(worldSeat, remembered, inputs).client; (c.watch, c.none) == LastWatch(inputs)
  {
    hide Handle;
    if inputs != [] {
      WatchIsLastSent(worldSeat, remembered, inputs[..|inputs| - 1]);
      LastStep(worldSeat, remembered, inputs);
      if Heard(inputs).Some? {
        HandleWatch(Run(worldSeat, remembered, inputs[..|inputs| - 1]).client, Heard(inputs).value);
      }
    }
  }

  lemma {:induction false} HandleWatch(c: Client, f: Frame)
    ensures var r := Handle(c, f);
            (r.watch, r.none) == match f case WatchableChanged(actors, none) => (actors, none) case _ => (c.watch, c.none)
  {
    hide HereAll, At, Fold.Replay;
  }
}
