/**
 The caller's end of a streaming call: a queue of payloads and a terminal status, filled by the
 channel's callbacks on the loop thread and emptied by `Read` on the caller's thread. The source
 guards both with one mutex, so each operation is one atomic step.
 */
module ClientReader {
  import opened Codec
  import opened StatusCodes
  import opened ClientStream

  /** What `Read` answers; it blocks while nothing is there to answer with. */
  datatype Answer = Payload(payload: Bytes) | EndOfStream | Failed(code: int) | Blocked

  datatype Reader = Reader(messages: seq<Bytes>, terminal: Option<int>, returned: seq<Bytes>)

  function NewReader(): Reader {
    Reader([], None, [])
  }

  /** The channel's callbacks. */
  function Hear(r: Reader, e: Event): Reader {
    match e
    case Message(m) => r.(messages := r.messages + [m])
    case Complete(code) => r.(terminal := Some(code))
  }

  function ReadAnswer(r: Reader): Answer {
    if r.messages != [] then Payload(r.messages[0])
    else if r.terminal.None? then Blocked
    else if r.terminal.value == OK then EndOfStream
    else Failed(r.terminal.value)
  }

  function AfterRead(r: Reader): Reader {
    if r.messages != [] then r.(messages := r.messages[1..], returned := r.returned + [r.messages[0]]) else r
  }

  /** Reading moves payloads over and loses none. */
  lemma ReadConserves(r: Reader)
    ensures AfterRead(r).returned + AfterRead(r).messages == r.returned + r.messages
  {
    if r.messages != [] { assert r.messages == [r.messages[0]] + r.messages[1..]; }
  }

  class ClientStreamState {
    var messages: seq<Bytes>
    var terminated: bool
    var terminal: int
    ghost var heard: seq<Bytes>       // payloads the channel delivered
    ghost var returned: seq<Bytes>    // payloads that Read answered with

    /** What was returned and what is still queued are what was delivered, in order. */
    ghost predicate Valid()
      reads this
    {
      returned + messages == heard
    }

    ghost function State(): Reader
      reads this
    {
      Reader(messages, if terminated then Some(terminal) else None, returned)
    }

    constructor ()
      ensures Valid() && State() == NewReader() && heard == []
    {
      messages, terminated, terminal, heard, returned := [], false, OK, [], [];
    }

    method OnMessage(payload: Bytes)
      requires Valid()
      modifies this
      ensures Valid() && State() == Hear(old(State()), Message(payload))
      ensures heard == old(heard) + [payload] && returned == old(returned)
    {
      Assoc(returned, messages, [payload]);
      heard := heard + [payload];
      messages := messages + [payload];
    }

    method NotifyTerminal(code: int)
      requires Valid()
      modifies this
      ensures Valid() && State() == Hear(old(State()), Complete(code))
      ensures terminated && terminal == code && heard == old(heard) && returned == old(returned)
    {
      terminal := code;
      terminated := true;
    }

    /**
     Answers with the oldest payload not returned yet, whatever the terminal status; with the end of
     the stream, or its failure, only once every payload delivered has been returned.
     */
    method Read() returns (answer: Answer)
      requires Valid()
      modifies this
      ensures Valid() && State() == AfterRead(old(State())) && answer == ReadAnswer(old(State())) && heard == old(heard)
      ensures answer.Payload? <==> |old(returned)| < |heard|
      ensures answer.Payload? ==>
                answer.payload == heard[|old(returned)|] && returned == old(returned) + [answer.payload]
      ensures !answer.Payload? ==> returned == old(returned) == heard
      ensures answer.EndOfStream? ==> terminated && terminal == OK
      ensures answer.Failed? ==> terminated && terminal == answer.code && answer.code != OK
      ensures answer.Blocked? <==> returned == heard && !answer.Payload? && !terminated
    {
      ReadConserves(State());
      if messages == [] && !terminated { return Blocked; }
      if messages != [] {
        answer := Payload(messages[0]);
        assert heard[|returned|] == messages[0];
        returned := returned + [messages[0]];
        messages := messages[1..];
        return;
      }
      if terminal == OK { return EndOfStream; }
      return Failed(terminal);
    }
  }
}
