// The message that travels through blocks, flows, orchestrators and services,
// and the trace of calls into user code.

module Messages {
  import opened Common

  /** The message fields the library reads or writes; "" stands for an unset field. */
  datatype MsgValue = MsgValue(source: string, flow: string, target: string, command: string, body: int)

  /**
   * One call into user code: the function called (by its tag) and the
   * message it received; a service's `post_process` also receives the
   * additional data (None when there is none). `PostCallFields` is a
   * `post_process` call that received, in place of a message and its data,
   * the `(name, value)` pairs of the two fields of the message `of`.
   */
  datatype Event =
    | Call(tag: int, arg: MsgValue)
    | PostCall(tag: int, arg: MsgValue, data: Option<int>)
    | PostCallFields(tag: int, of: MsgValue)

  /** The tags of the calls in a trace, in order. */
  function Tags(events: seq<Event>): seq<int>
  {
    seq(|events|, k requires 0 <= k < |events| => events[k].tag)
  }

  lemma TagsAppend(a: seq<Event>, b: seq<Event>)
    ensures Tags(a + b) == Tags(a) + Tags(b)
  {
  }

  /** A message object; `set_source` is the only mutation the library performs on it. */
  class Message {
    var source: string
    var flow: string
    var target: string
    var command: string
    var body: int

    constructor (v: MsgValue)
      ensures View() == v
    {
      source, flow, target, command, body := v.source, v.flow, v.target, v.command, v.body;
    }

    function View(): MsgValue
      reads this
    {
      MsgValue(source, flow, target, command, body)
    }

    method SetSource(s: string)
      modifies this`source
      ensures View() == old(View()).(source := s)
    {
      source := s;
    }
  }
}
