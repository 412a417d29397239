/** The USING clause of qb/using.go: setters that interact, and a writer that changes its own state. */
module Using {
  import opened Text
  import opened Docs
  import opened Buffers
  import opened Durations

  /** The fields of the Go struct; durations and instants are nanoseconds. */
  datatype UsingState = UsingState(
    ttlName: string, timestampName: string, timeoutName: string,
    ttl: int, timestamp: int, timeout: int)

  const UNSET := UsingState("", "", "", 0, 0, 0)

  /** qb/using.go `TTL` and `Timestamp`: whole seconds and microseconds, cut toward zero. */
  function TtlSeconds(d: int): (n: int)
    ensures d >= 0 ==> n * 1_000_000_000 <= d < (n + 1) * 1_000_000_000
    ensures d <= 0 ==> (n - 1) * 1_000_000_000 < d <= n * 1_000_000_000
  {
    Quo(d, 1_000_000_000)
  }

  function TimestampMicros(t: int): (n: int)
    ensures t >= 0 ==> n * 1000 <= t < (n + 1) * 1000
    ensures t <= 0 ==> (n - 1) * 1000 < t <= n * 1000
  {
    Quo(t, 1000)
  }

  /** What one of the three clauses asks for. */
  datatype Ask = Nothing | Fixed(text: string) | ByName(name: string)

  function NameAsk(name: string): Ask {
    if name == "" then Nothing else ByName(name)
  }

  function TtlAsk(u: UsingState): Ask {
    if u.ttl != 0 then Fixed(Itoa(if u.ttl == -1 then 0 else u.ttl)) else NameAsk(u.ttlName)
  }

  function TimestampAsk(u: UsingState): Ask {
    if u.timestamp != 0 then Fixed(Itoa(u.timestamp)) else NameAsk(u.timestampName)
  }

  function TimeoutAsk(u: UsingState): Ask {
    if u.timeout != 0 then Fixed(DurationText(u.timeout)) else NameAsk(u.timeoutName)
  }

  /** One clause after the preamble `USING ` or `AND `. */
  function PutAsk(d: Doc, first: bool, keyword: string, a: Ask): Doc {
    var e := Put(d, if first then "USING " else "AND ");
    match a
    case Nothing => d
    case Fixed(text) => Put(Put(Put(e, keyword), text), " ")
    case ByName(name) => Put(PutPar(Put(e, keyword), name), " ")
  }

  function PutAsks(d: Doc, ttl: Ask, timestamp: Ask, timeout: Ask): Doc {
    PutAsk(PutAsk(PutAsk(d, true, "TTL ", ttl),
                  ttl.Nothing?, "TIMESTAMP ", timestamp),
           ttl.Nothing? && timestamp.Nothing?, "TIMEOUT ", timeout)
  }

  function PutUsing(d: Doc, u: UsingState): Doc {
    PutAsks(d, TtlAsk(u), TimestampAsk(u), TimeoutAsk(u))
  }

  function AskNames(a: Ask): seq<string> {
    if a.ByName? then [a.name] else []
  }

  function UsingNames(u: UsingState): seq<string> {
    AskNames(TtlAsk(u)) + AskNames(TimestampAsk(u)) + AskNames(TimeoutAsk(u))
  }

  /** Writing turns the -1 that stands for a zero TTL into a plain 0. */
  function Written(u: UsingState): UsingState {
    u.(ttl := if u.ttl == -1 then 0 else u.ttl)
  }

  /** Everything that can happen to the clause state. */
  datatype Event =
    | TTL(d: int) | TTLNamed(name: string)
    | Timestamp(t: int) | TimestampNamed(name: string)
    | Timeout(d: int) | TimeoutNamed(name: string)
    | Write

  function Apply(u: UsingState, e: Event): UsingState {
    match e
    case TTL(d) => u.(ttl := if TtlSeconds(d) == 0 then -1 else TtlSeconds(d), timestampName := "")
    case TTLNamed(name) => u.(ttl := 0, ttlName := name)
    case Timestamp(t) => u.(timestamp := TimestampMicros(t), timestampName := "")
    case TimestampNamed(name) => u.(timestamp := 0, timestampName := name)
    case Timeout(d) => u.(timeout := d, timeoutName := "")
    case TimeoutNamed(name) => u.(timeout := 0, timeoutName := name)
    case Write => Written(u)
  }

  class UsingClause {
    var ttlName: string
    var timestampName: string
    var timeoutName: string
    var ttl: int
    var timestamp: int
    var timeout: int

    function State(): UsingState
      reads this
    {
      UsingState(ttlName, timestampName, timeoutName, ttl, timestamp, timeout)
    }

    constructor ()
      ensures State() == UNSET
    {
      ttlName, timestampName, timeoutName := "", "", "";
      ttl, timestamp, timeout := 0, 0, 0;
    }

    method TTL(d: int)
      modifies this
      ensures State() == Apply(old(State()), Event.TTL(d))
      ensures d >= 1_000_000_000 ==> ttl * 1_000_000_000 <= d < (ttl + 1) * 1_000_000_000
      ensures d <= -1_000_000_000 ==> (ttl - 1) * 1_000_000_000 < d <= ttl * 1_000_000_000
      ensures -1_000_000_000 < d < 1_000_000_000 ==> ttl == -1
      ensures timestampName == "" && ttlName == old(ttlName)
    {
      ttl := TtlSeconds(d);
      if ttl == 0 {
        ttl := -1;
      }
      timestampName := "";
    }

    method TTLNamed(name: string)
      modifies this
      ensures State() == Apply(old(State()), Event.TTLNamed(name))
    {
      ttl := 0;
      ttlName := name;
    }

    method Timestamp(t: int)
      modifies this
      ensures State() == Apply(old(State()), Event.Timestamp(t))
      ensures t >= 0 ==> timestamp * 1000 <= t < (timestamp + 1) * 1000
      ensures t <= 0 ==> (timestamp - 1) * 1000 < t <= timestamp * 1000
    {
      timestamp := TimestampMicros(t);
      timestampName := "";
    }

    method TimestampNamed(name: string)
      modifies this
      ensures State() == Apply(old(State()), Event.TimestampNamed(name))
    {
      timestamp := 0;
      timestampName := name;
    }

    method Timeout(d: int)
      modifies this
      ensures State() == Apply(old(State()), Event.Timeout(d))
    {
      timeout := d;
      timeoutName := "";
    }

    method TimeoutNamed(name: string)
      modifies this
      ensures State() == Apply(old(State()), Event.TimeoutNamed(name))
    {
      timeout := 0;
      timeoutName := name;
    }

    method WriteCql(cql: Buffer) returns (names: seq<string>)
      requires cql.Valid()
      modifies this`ttl, cql
      ensures State() == Apply(old(State()), Write)
      ensures cql.Valid() && cql.doc == PutUsing(old(cql.doc), old(State()))
      ensures names == UsingNames(old(State()))
    {
      var hasPreamble := false;
      var ns: seq<string>;
      names, hasPreamble := WriteTtl(hasPreamble, cql);
      ns, hasPreamble := WriteTimestamp(hasPreamble, cql);
      names := names + ns;
      ns, hasPreamble := WriteTimeout(hasPreamble, cql);
      names := names + ns;
    }

    method WriteTtl(hasPreamble: bool, cql: Buffer) returns (names: seq<string>, has: bool)
      requires cql.Valid()
      modifies this`ttl, cql
      ensures State() == Apply(old(State()), Write)
      ensures Wrote(old(cql.doc), cql, names, hasPreamble, has, "TTL ", TtlAsk(old(State())))
    {
      names, has := [], hasPreamble;
      if ttl != 0 {
        if ttl == -1 {
          ttl := 0;
        }
        has := WritePreamble(has, cql);
        WriteFixed("TTL ", Itoa(ttl), cql);
      } else if ttlName != "" {
        has := WritePreamble(has, cql);
        WriteNamed("TTL ", ttlName, cql);
        names := names + [ttlName];
      }
    }

    method WriteTimestamp(hasPreamble: bool, cql: Buffer) returns (names: seq<string>, has: bool)
      requires cql.Valid()
      modifies cql
      ensures Wrote(old(cql.doc), cql, names, hasPreamble, has, "TIMESTAMP ", TimestampAsk(State()))
    {
      names, has := [], hasPreamble;
      if timestamp != 0 {
        has := WritePreamble(has, cql);
        WriteFixed("TIMESTAMP ", Itoa(timestamp), cql);
      } else if timestampName != "" {
        has := WritePreamble(has, cql);
        WriteNamed("TIMESTAMP ", timestampName, cql);
        names := names + [timestampName];
      }
    }

    method WriteTimeout(hasPreamble: bool, cql: Buffer) returns (names: seq<string>, has: bool)
      requires cql.Valid()
      modifies cql
      ensures Wrote(old(cql.doc), cql, names, hasPreamble, has, "TIMEOUT ", TimeoutAsk(State()))
    {
      names, has := [], hasPreamble;
      if timeout != 0 {
        has := WritePreamble(has, cql);
        var text := FormatDuration(timeout);
        WriteFixed("TIMEOUT ", text, cql);
      } else if timeoutName != "" {
        has := WritePreamble(has, cql);
        WriteNamed("TIMEOUT ", timeoutName, cql);
        names := names + [timeoutName];
      }
    }
  }

  /** One clause was appended to `before`, with its name if it has one, and the preamble noted. */
  ghost predicate Wrote(before: Doc, cql: Buffer, names: seq<string>, had: bool, has: bool, keyword: string, a: Ask)
    reads cql
  {
    && cql.Valid()
    && cql.doc == PutAsk(before, !had, keyword, a)
    && names == AskNames(a)
    && has == (had || !a.Nothing?)
  }

  /** The closure made by `preambleWriter`: `USING ` once, then `AND `. */
  method WritePreamble(hasPreamble: bool, cql: Buffer) returns (has: bool)
    requires cql.Valid()
    modifies cql
    ensures has && cql.Valid() && cql.doc == Put(old(cql.doc), if hasPreamble then "AND " else "USING ")
  {
    if hasPreamble {
      cql.WriteString("AND ");
      return true;
    }
    cql.WriteString("USING ");
    return true;
  }

  method WriteFixed(keyword: string, text: string, cql: Buffer)
    requires cql.Valid()
    modifies cql
    ensures cql.Valid() && cql.doc == Put(Put(Put(old(cql.doc), keyword), text), " ")
  {
    cql.WriteString(keyword);
    cql.WriteString(text);
    cql.WriteByte(' ');
  }

  method WriteNamed(keyword: string, name: string, cql: Buffer)
    requires cql.Valid()
    modifies cql
    ensures cql.Valid() && cql.doc == Put(PutPar(Put(old(cql.doc), keyword), name), " ")
  {
    cql.WriteString(keyword);
    cql.WriteMark(name);
    cql.WriteByte(' ');
  }
}
