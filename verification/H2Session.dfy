/**
 The HTTP/2 session's flush and consumed-notification engine.

 nghttp2 is the environment: a script says, for each `nghttp2_session_send`, which bytes it hands to
 the send callback, which body reads it makes, in any amounts, and which streams it closes. A
 consumed-callback is a finite program of further submissions, which re-enter the session.
 */
module H2Session {
  import opened Codec

  datatype Note = Note(actions: seq<Action>)
  datatype Action = SendAction(sid: int, data: Bytes, note: Option<Note>) | FlushAction

  /** A submitted body; `id` is its submission number. */
  datatype Body = Body(id: nat, sid: int, data: Bytes, offset: nat, onConsumed: Option<Note>)

  datatype Queued = Queued(id: nat, note: Note)

  datatype Event = Produce(bytes: Bytes) | Read(index: nat, length: nat) | Close(sid: int)

  // ---- how much a program can still submit ----------------------------------------------------

  ghost function NoteWeight(n: Note): nat
    decreases n
  {
    1 + ActionsWeight(n.actions)
  }

  ghost function ActionsWeight(actions: seq<Action>): nat
    decreases actions
  {
    if actions == [] then 0 else ActionWeight(actions[0]) + ActionsWeight(actions[1..])
  }

  ghost function ActionWeight(a: Action): nat
    decreases a
  {
    match a
    case SendAction(_, _, Some(n)) => NoteWeight(n)
    case _ => 0
  }

  ghost function BodyWeight(b: Body): nat {
    if b.onConsumed.Some? then NoteWeight(b.onConsumed.value) else 0
  }

  ghost function BodiesWeight(bs: seq<Body>): nat {
    if bs == [] then 0 else BodiesWeight(bs[..|bs| - 1]) + BodyWeight(bs[|bs| - 1])
  }

  ghost function QueuedWeight(qs: seq<Queued>): nat {
    if qs == [] then 0 else NoteWeight(qs[0].note) + QueuedWeight(qs[1..])
  }

  lemma {:induction false} BodiesWeightUpdate(bs: seq<Body>, i: nat, b: Body)
    requires i < |bs|
    ensures BodiesWeight(bs[i := b]) == BodiesWeight(bs) - BodyWeight(bs[i]) + BodyWeight(b)
    decreases |bs|
  {
    var n := |bs| - 1;
    if i == n {
      assert bs[i := b][..n] == bs[..n];
    } else {
      BodiesWeightUpdate(bs[..n], i, b);
      assert bs[i := b][..n] == bs[..n][i := b];
    }
  }

  lemma BodiesWeightAppend(bs: seq<Body>, b: Body)
    ensures BodiesWeight(bs + [b]) == BodiesWeight(bs) + BodyWeight(b)
  {
    assert (bs + [b])[..|bs|] == bs;
  }

  lemma {:induction false} QueuedWeightAppend(qs: seq<Queued>, q: Queued)
    ensures QueuedWeight(qs + [q]) == QueuedWeight(qs) + NoteWeight(q.note)
    decreases |qs|
  {
    if qs == [] {
      assert [] + [q] == [q] && [q][1..] == [];
    } else {
      QueuedWeightAppend(qs[1..], q);
      assert (qs + [q])[1..] == qs[1..] + [q];
    }
  }

  function Submission(a: Action): seq<Bytes> {
    if a.SendAction? then [a.data] else []
  }

  /** The bodies a program submits, in order. */
  function Submissions(actions: seq<Action>): seq<Bytes> {
    if actions == [] then [] else Submission(actions[0]) + Submissions(actions[1..])
  }

  lemma ActionsTurn(acts: seq<Action>, k: nat)
    requires k < |acts|
    ensures ActionsWeight(acts[k..]) == ActionWeight(acts[k]) + ActionsWeight(acts[k + 1..])
    ensures Submissions(acts[k..]) == Submission(acts[k]) + Submissions(acts[k + 1..])
  {
    assert acts[k..][1..] == acts[k + 1..];
  }

  lemma NoteWeighs(n: Note)
    ensures NoteWeight(n) == 1 + ActionsWeight(n.actions)
  {
  }

  function Ids(qs: seq<Queued>): (ids: seq<nat>)
    ensures |ids| == |qs|
  {
    seq(|qs|, i requires 0 <= i < |qs| => qs[i].id)
  }

  // ---- what holds of the bodies ---------------------------------------------------------------

  /**
   What was read of a body is a prefix of what was submitted; a queued callback means all of it was
   read, and one still held that it was not, save for an empty body that was never asked for.
   */
  ghost predicate BodyOk(b: Body, taken: map<nat, Bytes>, pushed: seq<nat>, submitted: seq<Bytes>) {
    && b.id < |submitted| && b.data == submitted[b.id]
    && b.offset <= |b.data|
    && b.id in taken && taken[b.id] == b.data[..b.offset]
    && (b.id in pushed ==> b.onConsumed.None?)
    && (b.onConsumed.Some? ==> b.offset < |b.data| || b.data == [])
  }

  ghost predicate BodiesOk(bodies: seq<Body>, taken: map<nat, Bytes>, pushed: seq<nat>, submitted: seq<Bytes>) {
    && (forall i :: 0 <= i < |bodies| ==> BodyOk(bodies[i], taken, pushed, submitted))
    && (forall i, j :: 0 <= i < j < |bodies| ==> bodies[i].id != bodies[j].id)
    && (forall i :: 0 <= i < |pushed| ==>
          pushed[i] < |submitted| && pushed[i] in taken && taken[pushed[i]] == submitted[pushed[i]])
    && (forall i, j :: 0 <= i < j < |pushed| ==> pushed[i] != pushed[j])
  }

  /** The body after a read of `length` bytes, or of all that is left; at its end the callback is let go. */
  function ReadBody(b: Body, length: nat): (r: Body)
    requires b.offset <= |b.data|
    ensures r.id == b.id && r.sid == b.sid && r.data == b.data && b.offset <= r.offset <= |b.data|
    ensures r.offset - b.offset == length || (r.offset == |b.data| && r.offset - b.offset < length)
    ensures r.onConsumed == b.onConsumed || (r.onConsumed.None? && r.offset == |b.data|)
    ensures r.offset == |b.data| ==> r.onConsumed.None?
  {
    var remaining := |b.data| - b.offset;
    var chunk := if remaining < length then remaining else length;
    var r := b.(offset := b.offset + chunk);
    if r.offset == |b.data| then r.(onConsumed := None) else r
  }

  /** The callback that a read of the body queues. */
  function ReadNote(b: Body, length: nat): seq<Queued>
    requires b.offset <= |b.data|
  {
    if b.onConsumed.Some? && ReadBody(b, length).onConsumed.None? then [Queued(b.id, b.onConsumed.value)] else []
  }

  // ---- what one nghttp2_session_send does -----------------------------------------------------

  function ReadAt(bodies: seq<Body>, index: nat, length: nat): seq<Body> {
    if index < |bodies| && bodies[index].offset <= |bodies[index].data|
    then bodies[index := ReadBody(bodies[index], length)] else bodies
  }

  function NotesAt(bodies: seq<Body>, index: nat, length: nat): seq<Queued> {
    if index < |bodies| && bodies[index].offset <= |bodies[index].data| then ReadNote(bodies[index], length) else []
  }

  function BodyStep(bodies: seq<Body>, e: Event): seq<Body> {
    match e
    case Produce(_) => bodies
    case Read(index, length) => ReadAt(bodies, index, length)
    case Close(sid) => Without(bodies, sid)
  }

  function NoteStep(bodies: seq<Body>, e: Event): seq<Queued> {
    if e.Read? then NotesAt(bodies, e.index, e.length) else []
  }

  function BodiesAfter(bodies: seq<Body>, events: seq<Event>): seq<Body> {
    if events == [] then bodies
    else BodyStep(BodiesAfter(bodies, events[..|events| - 1]), events[|events| - 1])
  }

  /** The callbacks queued by the reads that finish their bodies, in order. */
  function NotesAfter(bodies: seq<Body>, events: seq<Event>): seq<Queued> {
    if events == [] then []
    else
      var before := events[..|events| - 1];
      NotesAfter(bodies, before) + NoteStep(BodiesAfter(bodies, before), events[|events| - 1])
  }

  function BytesOf(events: seq<Event>): Bytes {
    if events == [] then []
    else
      var e := events[|events| - 1];
      BytesOf(events[..|events| - 1]) + if e.Produce? then e.bytes else []
  }

  /** What nghttp2 does at the next send, and the sends after it. */
  function NextEvents(script: seq<seq<Event>>): seq<Event> {
    if script == [] then [] else script[0]
  }

  function LaterScript(script: seq<seq<Event>>): seq<seq<Event>> {
    if script == [] then [] else script[1..]
  }

  lemma EventsTurn(bodies: seq<Body>, events: seq<Event>, k: nat)
    requires k < |events|
    ensures var before, e := events[..k], events[k];
            && BytesOf(events[..k + 1]) == BytesOf(before) + (if e.Produce? then e.bytes else [])
            && BodiesAfter(bodies, events[..k + 1]) == BodyStep(BodiesAfter(bodies, before), e)
            && NotesAfter(bodies, events[..k + 1])
               == NotesAfter(bodies, before) + NoteStep(BodiesAfter(bodies, before), e)
  {
    assert events[..k + 1][..k] == events[..k];
  }

  lemma ReadKeepsBodies(bodies: seq<Body>, taken: map<nat, Bytes>, pushed: seq<nat>, submitted: seq<Bytes>,
      k: nat, length: nat)
    requires BodiesOk(bodies, taken, pushed, submitted) && k < |bodies|
    ensures var b := bodies[k];
            && b.offset <= |b.data| && b.id in taken
            && var r := ReadBody(b, length);
               BodiesOk(bodies[k := r], taken[b.id := taken[b.id] + b.data[b.offset..r.offset]],
                        if r.onConsumed != b.onConsumed then pushed + [b.id] else pushed, submitted)
  {
    var b := bodies[k];
    assert BodyOk(b, taken, pushed, submitted);
    var r := ReadBody(b, length);
    assert b.data[..b.offset] + b.data[b.offset..r.offset] == b.data[..r.offset];
    var bodies', taken' := bodies[k := r], taken[b.id := b.data[..r.offset]];
    var pushed' := if r.onConsumed != b.onConsumed then pushed + [b.id] else pushed;
    forall i | 0 <= i < |bodies|
      ensures bodies'[i].id == bodies[i].id && BodyOk(bodies'[i], taken', pushed', submitted)
    {
      assert BodyOk(bodies[i], taken, pushed, submitted);
      if i != k { assert bodies[i].id != b.id; }
    }
  }

  lemma AppendKeepsBodies(bodies: seq<Body>, taken: map<nat, Bytes>, pushed: seq<nat>, submitted: seq<Bytes>, b: Body)
    requires BodiesOk(bodies, taken, pushed, submitted) && b.id == |submitted| && b.offset == 0
    ensures BodiesOk(bodies + [b], taken[b.id := []], pushed, submitted + [b.data])
  {
  }

  /** The bodies left when a stream closes. */
  function Without(bodies: seq<Body>, sid: int): seq<Body> {
    if bodies == [] then []
    else
      var b := bodies[|bodies| - 1];
      Without(bodies[..|bodies| - 1], sid) + if b.sid == sid then [] else [b]
  }

  lemma {:induction false} WithoutExactly(bodies: seq<Body>, sid: int)
    ensures forall b :: b in Without(bodies, sid) <==> b in bodies && b.sid != sid
    decreases |bodies|
  {
    if bodies != [] {
      var front, b := bodies[..|bodies| - 1], bodies[|bodies| - 1];
      WithoutExactly(front, sid);
      assert bodies == front + [b];
    }
  }

  lemma {:induction false} WithoutKeepsBodies(bodies: seq<Body>, taken: map<nat, Bytes>, pushed: seq<nat>,
      submitted: seq<Bytes>, sid: int)
    requires BodiesOk(bodies, taken, pushed, submitted)
    ensures BodiesOk(Without(bodies, sid), taken, pushed, submitted)
    ensures forall b :: b in Without(bodies, sid) <==> b in bodies && b.sid != sid
    decreases |bodies|
  {
    if bodies != [] {
      var front, b := bodies[..|bodies| - 1], bodies[|bodies| - 1];
      WithoutKeepsBodies(front, taken, pushed, submitted, sid);
      assert bodies == front + [b];
      assert BodyOk(b, taken, pushed, submitted);
      var w := Without(front, sid);
      forall i | 0 <= i < |w| ensures w[i].id != b.id { assert w[i] in front; }
    }
  }

  lemma {:induction false} WithoutWeight(bodies: seq<Body>, sid: int)
    ensures BodiesWeight(Without(bodies, sid)) <= BodiesWeight(bodies)
    decreases |bodies|
  {
    if bodies != [] {
      var front, b := bodies[..|bodies| - 1], bodies[|bodies| - 1];
      WithoutWeight(front, sid);
      BodiesWeightAppend(Without(front, sid), b);
      assert Without(front, sid) + [] == Without(front, sid);
    }
  }

  /** Bodies whose stream closed before they were consumed: none is left, and none was ever queued. */
  ghost predicate DroppedOk(dropped: set<nat>, bodies: seq<Body>, pushed: seq<nat>, n: nat) {
    && (forall id :: id in dropped ==> id < n && id !in pushed)
    && (forall i :: 0 <= i < |bodies| ==> bodies[i].id !in dropped)
  }

  ghost function Unconsumed(bodies: seq<Body>, sid: int): set<nat> {
    set b | b in bodies && b.sid == sid && b.onConsumed.Some? :: b.id
  }

  ghost function Holding(bodies: seq<Body>): set<nat> {
    set b | b in bodies && b.onConsumed.Some? :: b.id
  }

  /** Each body submitted with a callback: consumed, or dropped, or still held and not read to its end. */
  ghost predicate NotifiedOk(notified: set<nat>, pushed: seq<nat>, dropped: set<nat>, bodies: seq<Body>) {
    notified == (set id | id in pushed) + dropped + Holding(bodies)
  }

  lemma HoldingRead(bodies: seq<Body>, taken: map<nat, Bytes>, pushed: seq<nat>, submitted: seq<Bytes>, k: nat, r: Body)
    requires BodiesOk(bodies, taken, pushed, submitted) && k < |bodies| && r.id == bodies[k].id
    requires r.onConsumed == bodies[k].onConsumed || r.onConsumed.None?
    ensures bodies[k].onConsumed.Some? && r.onConsumed.None? ==> Holding(bodies) == Holding(bodies[k := r]) + {r.id}
    ensures r.onConsumed == bodies[k].onConsumed ==> Holding(bodies[k := r]) == Holding(bodies)
  {
    var after := bodies[k := r];
    forall i | 0 <= i < |bodies| && bodies[i].onConsumed.Some? && i != k ensures bodies[i].id in Holding(after) {
      assert after[i] == bodies[i];
    }
    forall i | 0 <= i < |bodies| && after[i].onConsumed.Some? ensures after[i].id in Holding(bodies) {
      assert bodies[i].onConsumed.Some? && bodies[i].id == after[i].id;
    }
    if r.onConsumed.Some? { assert after[k].onConsumed.Some?; }
  }

  lemma HoldingAppend(bodies: seq<Body>, b: Body)
    ensures Holding(bodies + [b]) == Holding(bodies) + if b.onConsumed.Some? then {b.id} else {}
  {
    var after := bodies + [b];
    assert b in after && forall x :: x in bodies ==> x in after;
  }

  lemma HoldingWithout(bodies: seq<Body>, taken: map<nat, Bytes>, pushed: seq<nat>, submitted: seq<Bytes>, sid: int)
    requires BodiesOk(bodies, taken, pushed, submitted)
    ensures Holding(bodies) == Holding(Without(bodies, sid)) + Unconsumed(bodies, sid)
  {
    WithoutKeepsBodies(bodies, taken, pushed, submitted, sid);
  }

  lemma DropKeeps(dropped: set<nat>, bodies: seq<Body>, taken: map<nat, Bytes>, pushed: seq<nat>, submitted: seq<Bytes>,
      sid: int)
    requires BodiesOk(bodies, taken, pushed, submitted) && DroppedOk(dropped, bodies, pushed, |submitted|)
    ensures DroppedOk(dropped + Unconsumed(bodies, sid), Without(bodies, sid), pushed, |submitted|)
  {
    WithoutKeepsBodies(bodies, taken, pushed, submitted, sid);
    var w := Without(bodies, sid);
    forall id | id in Unconsumed(bodies, sid) ensures id < |submitted| && id !in pushed {
      var b :| b in bodies && b.sid == sid && b.onConsumed.Some? && b.id == id;
      assert BodyOk(b, taken, pushed, submitted);
    }
    forall i | 0 <= i < |w| ensures w[i].id !in Unconsumed(bodies, sid) && w[i].id !in dropped {
      assert w[i] in bodies && w[i].sid != sid;
    }
  }

  /** Where every submitted body is. */
  ghost predicate PlacesOk(bodies: seq<Body>, taken: map<nat, Bytes>, pushed: seq<nat>, submitted: seq<Bytes>,
      dropped: set<nat>, notified: set<nat>) {
    && BodiesOk(bodies, taken, pushed, submitted)
    && DroppedOk(dropped, bodies, pushed, |submitted|)
    && NotifiedOk(notified, pushed, dropped, bodies)
  }

  lemma OffsetInBody(bodies: seq<Body>, taken: map<nat, Bytes>, pushed: seq<nat>, submitted: seq<Bytes>, k: nat)
    requires BodiesOk(bodies, taken, pushed, submitted) && k < |bodies|
    ensures bodies[k].offset <= |bodies[k].data| && bodies[k].id in taken
  {
    assert BodyOk(bodies[k], taken, pushed, submitted);
  }

  lemma ReadKeepsPlaces(bodies: seq<Body>, taken: map<nat, Bytes>, pushed: seq<nat>, submitted: seq<Bytes>,
      dropped: set<nat>, notified: set<nat>, k: nat, length: nat)
    requires PlacesOk(bodies, taken, pushed, submitted, dropped, notified) && k < |bodies|
    ensures var b := bodies[k];
            && b.offset <= |b.data| && b.id in taken
            && var r := ReadBody(b, length);
               PlacesOk(bodies[k := r], taken[b.id := taken[b.id] + b.data[b.offset..r.offset]],
                        if r.onConsumed != b.onConsumed then pushed + [b.id] else pushed, submitted, dropped, notified)
  {
    OffsetInBody(bodies, taken, pushed, submitted, k);
    ReadKeepsBodies(bodies, taken, pushed, submitted, k, length);
    var b, r := bodies[k], ReadBody(bodies[k], length);
    HoldingRead(bodies, taken, pushed, submitted, k, r);
    ReadKeepsDropped(bodies, pushed, |submitted|, dropped, k, r);
    hide BodiesOk, DroppedOk, Holding, ReadBody;
    if r.onConsumed != b.onConsumed { PushNotified(notified, pushed, dropped, bodies, bodies[k := r], r.id); }
  }

  lemma PushNotified(notified: set<nat>, pushed: seq<nat>, dropped: set<nat>, bodies: seq<Body>, after: seq<Body>,
      id: nat)
    requires NotifiedOk(notified, pushed, dropped, bodies) && Holding(bodies) == Holding(after) + {id}
    ensures NotifiedOk(notified, pushed + [id], dropped, after)
  {
    hide Holding;
    assert (set i | i in pushed + [id]) == (set i | i in pushed) + {id};
  }

  lemma ReadKeepsDropped(bodies: seq<Body>, pushed: seq<nat>, n: nat, dropped: set<nat>, k: nat, r: Body)
    requires DroppedOk(dropped, bodies, pushed, n) && k < |bodies| && r.id == bodies[k].id
    ensures DroppedOk(dropped, bodies[k := r], pushed, n) && DroppedOk(dropped, bodies[k := r], pushed + [r.id], n)
  {
  }

  lemma AppendKeepsPlaces(bodies: seq<Body>, taken: map<nat, Bytes>, pushed: seq<nat>, submitted: seq<Bytes>,
      dropped: set<nat>, notified: set<nat>, b: Body)
    requires PlacesOk(bodies, taken, pushed, submitted, dropped, notified) && b.id == |submitted| && b.offset == 0
    ensures PlacesOk(bodies + [b], taken[b.id := []], pushed, submitted + [b.data], dropped,
                     if b.onConsumed.Some? then notified + {b.id} else notified)
  {
    AppendKeepsBodies(bodies, taken, pushed, submitted, b);
    HoldingAppend(bodies, b);
    hide BodiesOk, Holding;
  }

  lemma CloseKeepsPlaces(bodies: seq<Body>, taken: map<nat, Bytes>, pushed: seq<nat>, submitted: seq<Bytes>,
      dropped: set<nat>, notified: set<nat>, sid: int)
    requires PlacesOk(bodies, taken, pushed, submitted, dropped, notified)
    ensures PlacesOk(Without(bodies, sid), taken, pushed, submitted, dropped + Unconsumed(bodies, sid), notified)
  {
    WithoutKeepsBodies(bodies, taken, pushed, submitted, sid);
    DropKeeps(dropped, bodies, taken, pushed, submitted, sid);
    HoldingWithout(bodies, taken, pushed, submitted, sid);
    hide BodiesOk, DroppedOk, Holding, Unconsumed;
  }

  class Session {
    var out: Bytes
    var bodies: seq<Body>
    var consumed: seq<Queued>
    var flushDepth: nat
    var nextId: nat
    var script: seq<seq<Event>>   // nghttp2's choices, one entry for each send still to come

    ghost var submitted: seq<Bytes>   // every body ever submitted
    ghost var produced: Bytes     // bytes handed to the send callback
    ghost var written: Bytes      // bytes handed to OnWrite
    ghost var pushed: seq<nat>    // bodies in the order they were fully consumed
    ghost var ran: seq<nat>       // consumed-callbacks in the order they ran
    ghost var batch: seq<Queued>  // callbacks the drain has picked up and not run yet
    ghost var taken: map<nat, Bytes>   // what was read of each body
    ghost var dropped: set<nat>   // bodies whose stream closed before they were consumed
    ghost var notified: set<nat>  // bodies submitted with a callback

    constructor (script: seq<seq<Event>>)
      ensures Valid() && flushDepth == 0 && pushed == [] && written == []
    {
      out, bodies, consumed, flushDepth, nextId := [], [], [], 0, 0;
      this.script := script;
      submitted, produced, written, pushed, ran, batch, taken := [], [], [], [], [], [], map[];
      dropped, notified := {}, {};
    }

    /**
     Bytes reach OnWrite in the order produced; callbacks run in consumption order, each at most
     once, and only the outermost flush has any in hand. A body submitted with a callback is in exactly
     one place: consumed in full and its callback queued or run, or dropped by its stream's close, or
     still to be read to its end.
     */
    ghost predicate Valid()
      reads this
    {
      && written + out == produced
      && nextId == |submitted|
      && PlacesOk(bodies, taken, pushed, submitted, dropped, notified)
      && pushed == ran + Ids(batch) + Ids(consumed)
      && (flushDepth == 0 ==> batch == [])
    }

    ghost function Weight(): nat
      reads this
    {
      BodiesWeight(bodies) + QueuedWeight(batch) + QueuedWeight(consumed)
    }

    /** One invocation of the data provider. */
    method BodyRead(index: nat, length: nat)
      requires Valid()
      modifies this`bodies, this`consumed, this`pushed, this`taken
      ensures Valid() && Weight() == old(Weight())
      ensures bodies == ReadAt(old(bodies), index, length)
      ensures consumed == old(consumed) + NotesAt(old(bodies), index, length)
    {
      hide PlacesOk, BodiesWeight, QueuedWeight, Ids;
      if index >= |bodies| { return; }
      var b := bodies[index];
      ReadKeepsPlaces(bodies, taken, pushed, submitted, dropped, notified, index, length);
      var remaining := |b.data| - b.offset;
      var chunk := if remaining < length then remaining else length;
      var r := b.(offset := b.offset + chunk);
      if r.offset == |b.data| {
        if b.onConsumed.Some? {
          var q := Queued(b.id, b.onConsumed.value);
          QueuedWeightAppend(consumed, q);
          IdsAppend(consumed, q);
          Assoc(ran + Ids(batch), Ids(consumed), [b.id]);
          consumed := consumed + [q];
          pushed := pushed + [b.id];
          r := r.(onConsumed := None);
        }
      }
      BodiesWeightUpdate(bodies, index, r);
      taken := taken[b.id := taken[b.id] + b.data[b.offset..r.offset]];
      bodies := bodies[index := r];
    }

    /** nghttp2_session_send: some bytes for the send callback, some body reads, some closes. */
    method SessionSend()
      requires Valid()
      modifies this`out, this`bodies, this`consumed, this`script, this`produced, this`pushed, this`taken, this`dropped
      ensures Valid() && Weight() <= old(Weight()) && old(dropped) <= dropped
      ensures script == LaterScript(old(script))
      ensures produced == old(produced) + BytesOf(NextEvents(old(script)))
      ensures bodies == BodiesAfter(old(bodies), NextEvents(old(script)))
      ensures consumed == old(consumed) + NotesAfter(old(bodies), NextEvents(old(script)))
    {
      if script == [] { return; }
      var events := script[0];
      script := script[1..];
      for k := 0 to |events|
        invariant Valid() && Weight() <= old(Weight()) && old(dropped) <= dropped
        invariant script == LaterScript(old(script))
        invariant produced == old(produced) + BytesOf(events[..k])
        invariant bodies == BodiesAfter(old(bodies), events[..k])
        invariant consumed == old(consumed) + NotesAfter(old(bodies), events[..k])
      {
        hide Session.Valid, Session.Weight, ReadAt, NotesAt, Without, BodiesAfter, NotesAfter, BytesOf, LaterScript;
        EventsTurn(old(bodies), events, k);
        Assoc(old(produced), BytesOf(events[..k]), if events[k].Produce? then events[k].bytes else []);
        Assoc(old(consumed), NotesAfter(old(bodies), events[..k]), NoteStep(bodies, events[k]));
        OneEvent(events[k]);
      }
      assert events[..|events|] == events;
    }

    method OneEvent(e: Event)
      requires Valid()
      modifies this`out, this`bodies, this`consumed, this`produced, this`pushed, this`taken, this`dropped
      ensures Valid() && Weight() <= old(Weight()) && old(dropped) <= dropped
      ensures produced == old(produced) + if e.Produce? then e.bytes else []
      ensures bodies == BodyStep(old(bodies), e)
      ensures consumed == old(consumed) + NoteStep(old(bodies), e)
    {
      hide PlacesOk, BodiesWeight, QueuedWeight, Ids, Unconsumed, ReadAt, NotesAt, Without;
      match e
      case Produce(bytes) =>
        Assoc(written, out, bytes);
        out := out + bytes;
        produced := produced + bytes;
      case Read(index, length) =>
        BodyRead(index, length);
      case Close(sid) =>
        OnStreamClose(sid);
    }

    /** A closed stream drops its bodies; their callbacks are never queued, those queued still run. */
    method OnStreamClose(sid: int)
      requires Valid()
      modifies this`bodies, this`dropped
      ensures Valid() && Weight() <= old(Weight())
      ensures bodies == Without(old(bodies), sid)
      ensures forall b :: b in bodies <==> b in old(bodies) && b.sid != sid
      ensures dropped == old(dropped) + Unconsumed(old(bodies), sid)
    {
      WithoutExactly(bodies, sid);
      CloseKeepsPlaces(bodies, taken, pushed, submitted, dropped, notified, sid);
      WithoutWeight(bodies, sid);
      hide PlacesOk, BodiesWeight, QueuedWeight, Ids, Without, Unconsumed;
      dropped := dropped + Unconsumed(bodies, sid);
      bodies := Without(bodies, sid);
    }

    method SendData(sid: int, data: Bytes, note: Option<Note>)
      requires Valid()
      modifies this
      ensures Valid() && out == [] && written == produced && flushDepth == old(flushDepth)
      ensures old(dropped) <= dropped && old(notified) <= notified && (note.Some? ==> |old(submitted)| in notified)
      ensures |script| <= |old(script)| && old(produced) <= produced && old(pushed) <= pushed
      ensures old(submitted) + [data] <= submitted && (flushDepth > 0 ==> submitted == old(submitted) + [data])
      ensures flushDepth > 0 ==> Nested(old(ran), old(batch), old(consumed), ran, batch, consumed)
      ensures flushDepth > 0 ==> Sent(old(script), old(produced), old(bodies) + [Body(old(nextId), sid, data, 0, note)],
                                      script, produced, bodies)
      ensures flushDepth > 0 ==> Weight() <= old(Weight()) + if note.Some? then NoteWeight(note.value) else 0
      ensures flushDepth == 0 ==> consumed == [] && ran == pushed
      decreases if flushDepth == 0 then 3 else 1, 0
    {
      hide PlacesOk, BodiesWeight, QueuedWeight, Ids, NoteWeight, Sent;
      var b := Body(nextId, sid, data, 0, note);
      AppendKeepsPlaces(bodies, taken, pushed, submitted, dropped, notified, b);
      BodiesWeightAppend(bodies, b);
      if note.Some? { notified := notified + {b.id}; }
      taken := taken[b.id := []];
      bodies := bodies + [b];
      submitted := submitted + [data];
      nextId := nextId + 1;
      FlushOut();
    }

    /** A flush inside a callback runs no callback; it may find more of them to run later. */
    static ghost predicate Nested(ran0: seq<nat>, batch0: seq<Queued>, consumed0: seq<Queued>,
                                  ran1: seq<nat>, batch1: seq<Queued>, consumed1: seq<Queued>) {
      ran1 == ran0 && batch1 == batch0 && consumed0 <= consumed1
    }

    /** Exactly one send happened. */
    static ghost predicate Sent(script0: seq<seq<Event>>, produced0: Bytes, bodies0: seq<Body>,
                                script1: seq<seq<Event>>, produced1: Bytes, bodies1: seq<Body>) {
      && script1 == LaterScript(script0)
      && produced1 == produced0 + BytesOf(NextEvents(script0))
      && bodies1 == BodiesAfter(bodies0, NextEvents(script0))
    }

    /** A nested flush sends once; the outermost one goes on until no callback is left to run. */
    method FlushOut()
      requires Valid()
      modifies this
      ensures Valid() && out == [] && written == produced && flushDepth == old(flushDepth)
      ensures old(dropped) <= dropped && old(notified) <= notified
      ensures old(submitted) <= submitted && (flushDepth > 0 ==> submitted == old(submitted))
      ensures flushDepth > 0 ==> Nested(old(ran), old(batch), old(consumed), ran, batch, consumed)
      ensures flushDepth > 0 ==> Sent(old(script), old(produced), old(bodies), script, produced, bodies)
      ensures flushDepth > 0 ==> Weight() <= old(Weight())
      ensures flushDepth == 0 ==> consumed == [] && ran == pushed
      ensures |script| <= |LaterScript(old(script))| && old(produced) + BytesOf(NextEvents(old(script))) <= produced
      ensures old(pushed) + Ids(NotesAfter(old(bodies), NextEvents(old(script)))) <= pushed
      decreases if flushDepth == 0 then 2 else 0, 0
    {
      hide PlacesOk, BodiesWeight, QueuedWeight, NoteWeight, NotesAfter, BodiesAfter, BytesOf, LaterScript, NextEvents;
      ghost var notes := NotesAfter(bodies, NextEvents(script));
      SessionSend();
      assert pushed == old(pushed) + Ids(notes) by { IdsOfNotes(ran + Ids(batch), old(consumed), notes); }
      if flushDepth == 0 {
        flushDepth := flushDepth + 1;
        DrainNotes();
        flushDepth := flushDepth - 1;
        assert Ids(consumed) == [] && Ids(batch) == [];
      }
      if out != [] {
        written := written + out;
        out := [];
      }
    }

    /** Runs callbacks, and those that their submissions lead to, until none is queued. */
    method DrainNotes()
      requires Valid() && flushDepth == 1 && batch == []
      modifies this
      ensures Valid() && flushDepth == 1 && batch == [] && consumed == []
      ensures old(submitted) <= submitted && old(dropped) <= dropped && old(notified) <= notified
      ensures |script| <= |old(script)| && old(produced) <= produced && old(pushed) <= pushed
      decreases 1, 4
    {
      hide PlacesOk, BodiesWeight, QueuedWeight, NoteWeight, Ids, NotesAfter, BodiesAfter, BytesOf;
      while consumed != []
        invariant Valid() && flushDepth == 1 && batch == []
        invariant old(submitted) <= submitted && old(dropped) <= dropped && old(notified) <= notified
        invariant |script| <= |old(script)| && old(produced) <= produced && old(pushed) <= pushed
        decreases Weight()
      {
        RunBatch();
        SessionSend();
      }
    }

    /** Runs every callback that is queued now; what they queue waits. */
    method RunBatch()
      requires Valid() && flushDepth == 1 && batch == [] && consumed != []
      modifies this
      ensures Valid() && flushDepth == 1 && batch == [] && Weight() < old(Weight())
      ensures old(submitted) <= submitted && old(dropped) <= dropped && old(notified) <= notified
      ensures |script| <= |old(script)| && old(produced) <= produced && old(pushed) <= pushed
      ensures ran == old(ran) + Ids(old(consumed))
      decreases 1, 3
    {
      hide PlacesOk, BodiesWeight, QueuedWeight, NoteWeight, Ids;
      var notes := consumed;
      TakeBatch();
      assert notes[..0] == [] && Ids([]) == [] by { NoIds(); }
      for i := 0 to |notes|
        invariant Valid() && flushDepth == 1 && batch == notes[i..]
        invariant old(submitted) <= submitted && old(dropped) <= dropped && old(notified) <= notified
        invariant |script| <= |old(script)| && old(produced) <= produced && old(pushed) <= pushed
        invariant ran == old(ran) + Ids(notes[..i])
        invariant Weight() + i <= old(Weight())
      {
        RunNote(notes[i]);
        assert notes[..i + 1] == notes[..i] + [notes[i]];
        IdsAppend(notes[..i], notes[i]);
        Assoc(old(ran), Ids(notes[..i]), [notes[i].id]);
      }
      assert notes[..|notes|] == notes;
    }

    /** The drain picks up the notifications queued so far. */
    method TakeBatch()
      requires Valid() && flushDepth > 0 && batch == []
      modifies this`consumed, this`batch
      ensures Valid() && batch == old(consumed) && consumed == [] && Weight() == old(Weight())
    {
      hide PlacesOk, BodiesWeight;
      batch := consumed;
      consumed := [];
    }

    /** Runs one consumed-callback; its submissions flush without draining. */
    method RunNote(q: Queued)
      requires Valid() && flushDepth > 0 && batch != [] && batch[0] == q
      modifies this
      ensures Valid() && flushDepth == old(flushDepth)
      ensures ran == old(ran) + [q.id] && batch == old(batch)[1..] && old(consumed) <= consumed
      ensures submitted == old(submitted) + Submissions(q.note.actions)
      ensures old(dropped) <= dropped && old(notified) <= notified
      ensures |script| <= |old(script)| && old(produced) <= produced && old(pushed) <= pushed
      ensures Weight() + 1 <= old(Weight())
      decreases 1, 2
    {
      hide PlacesOk, BodiesWeight, QueuedWeight, Ids, Session.Sent;
      ghost var w := Weight();
      BatchPop(batch);
      Assoc(ran, [q.id], Ids(batch[1..]));
      ran := ran + [q.id];
      batch := batch[1..];
      assert Valid() && Weight() + NoteWeight(q.note) == w;
      hide Session.Valid, Session.Weight;
      var acts := q.note.actions;
      hide NoteWeight, ActionWeight;
      NoteWeighs(q.note);
      for k := 0 to |acts|
        invariant Valid() && flushDepth == old(flushDepth)
        invariant ran == old(ran) + [q.id] && batch == old(batch)[1..] && old(consumed) <= consumed
        invariant submitted + Submissions(acts[k..]) == old(submitted) + Submissions(acts)
        invariant old(dropped) <= dropped && old(notified) <= notified
        invariant |script| <= |old(script)| && old(produced) <= produced && old(pushed) <= pushed
        invariant Weight() + 1 + ActionsWeight(acts[k..]) <= w
      {
        ActionsTurn(acts, k);
        Assoc(submitted, Submission(acts[k]), Submissions(acts[k + 1..]));
        hide ActionsWeight, Submissions, Submission;
        RunAction(acts[k]);
      }
    }

    /** One thing a callback does. */
    method RunAction(a: Action)
      requires Valid() && flushDepth > 0
      modifies this
      ensures Valid() && flushDepth == old(flushDepth)
      ensures ran == old(ran) && batch == old(batch) && old(consumed) <= consumed
      ensures submitted == old(submitted) + Submission(a)
      ensures old(dropped) <= dropped && old(notified) <= notified
      ensures |script| <= |old(script)| && old(produced) <= produced && old(pushed) <= pushed
      ensures Weight() <= old(Weight()) + ActionWeight(a)
      decreases 1, 1
    {
      hide Session.Valid, Session.Weight, Session.Sent, NoteWeight, NotesAfter, BytesOf, NextEvents;
      match a
      case SendAction(sid, data, note) => SendData(sid, data, note);
      case FlushAction => FlushOut();
    }

    /**
     Between two tasks of the loop: a body submitted with a callback has been read in full and its
     callback has run, once; or its stream closed first and the callback never ran; or it has not
     been read to its end. Exactly one of these.
     */
    lemma ExactlyOnceOrNever(id: nat)
      requires Valid() && consumed == [] && ran == pushed && id in notified
      ensures id in ran || id in dropped || id in Holding(bodies)
      ensures id in ran ==> id in taken && id < |submitted| && taken[id] == submitted[id] && multiset(ran)[id] == 1
                            && id !in dropped && id !in Holding(bodies)
      ensures id in dropped ==> id !in Holding(bodies)
      ensures forall b :: b in bodies && b.onConsumed.Some? ==> b.offset < |b.data| || b.data == []
    {
      forall b | b in bodies ensures BodyOk(b, taken, pushed, submitted) {
        var i :| 0 <= i < |bodies| && bodies[i] == b;
      }
      if id in ran {
        var i :| 0 <= i < |ran| && ran[i] == id;
        OccursOnce(ran, i);
      }
    }
  }

  lemma OccursOnce(s: seq<nat>, i: nat)
    requires i < |s| && forall j, k :: 0 <= j < k < |s| ==> s[j] != s[k]
    ensures multiset(s)[s[i]] == 1
  {
    assert s == s[..i] + [s[i]] + s[i + 1..];
  }

  lemma BatchPop(qs: seq<Queued>)
    requires qs != []
    ensures Ids(qs) == [qs[0].id] + Ids(qs[1..]) && QueuedWeight(qs) == NoteWeight(qs[0].note) + QueuedWeight(qs[1..])
  {
  }

  lemma NoIds()
    ensures Ids([]) == []
  {
  }

  lemma IdsOfNotes(ran: seq<nat>, consumed: seq<Queued>, notes: seq<Queued>)
    ensures ran + Ids(consumed + notes) == ran + Ids(consumed) + Ids(notes)
  {
    assert Ids(consumed + notes) == Ids(consumed) + Ids(notes);
  }

  lemma IdsAppend(qs: seq<Queued>, q: Queued)
    ensures Ids(qs + [q]) == Ids(qs) + [q.id]
  {
  }
}
