/** The two collaborators the middleware talks to: the HTTP runtime's
    response writer and the zap logger. Both report what reaches them to a
    shared ghost `History`, so that the order of forwarded calls and log
    entries can be observed across the two objects. */
module Runtime {
  import opened NetHttp
  import Zap

  /** Something that reached a collaborator: a call forwarded to the
      response writer, or an entry given to the logger. */
  datatype Event = Forwarded(op: Op) | Logged(entry: Zap.Entry)

  /** The observed order of events, oldest first. */
  class History {
    ghost var events: seq<Event>

    constructor ()
      ensures events == []
    {
      events := [];
    }
  }

  /** The runtime's response writer. `trace` is every call it has received,
      in order; `reply` is how the environment answers a body write, given
      the calls received before it (so a write after a closed connection or
      after a bodiless status can fail) and the bytes. */
  class ResponseWriter {
    var trace: seq<Op>
    const reply: (seq<Op>, seq<byte>) -> WriteResult
    const history: History

    constructor (reply: (seq<Op>, seq<byte>) -> WriteResult, history: History)
      ensures trace == [] && this.reply == reply && this.history == history
    {
      this.reply := reply;
      this.history := history;
      trace := [];
    }

    method WriteHeader(code: int)
      modifies this, history
      ensures trace == old(trace) + [Op.WriteHeader(code)]
      ensures history.events == old(history.events) + [Forwarded(Op.WriteHeader(code))]
    {
      trace := trace + [Op.WriteHeader(code)];
      history.events := history.events + [Forwarded(Op.WriteHeader(code))];
    }

    method Write(b: seq<byte>) returns (n: int, err: Option<Error>)
      modifies this, history
      ensures trace == old(trace) + [Op.Write(b)]
      ensures history.events == old(history.events) + [Forwarded(Op.Write(b))]
      ensures WriteResult(n, err) == reply(old(trace), b)
    {
      n, err := reply(trace, b).n, reply(trace, b).err;
      trace := trace + [Op.Write(b)];
      history.events := history.events + [Forwarded(Op.Write(b))];
    }
  }

  /** The log sink: every entry written to it, oldest first. */
  class Logger {
    var entries: seq<Zap.Entry>
    const history: History

    constructor (history: History)
      ensures entries == [] && this.history == history
    {
      entries := [];
      this.history := history;
    }

    method Info(message: string, fields: seq<Zap.Field>)
      modifies this, history
      ensures entries == old(entries) + [Zap.Entry(Zap.Level.Info, message, fields)]
      ensures history.events == old(history.events) + [Logged(Zap.Entry(Zap.Level.Info, message, fields))]
    {
      entries := entries + [Zap.Entry(Zap.Level.Info, message, fields)];
      history.events := history.events + [Logged(Zap.Entry(Zap.Level.Info, message, fields))];
    }
  }
}
