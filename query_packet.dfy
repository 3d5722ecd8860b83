/** The COM_QUERY client message of the MariaDB/MySQL client/server
    protocol: command byte 0x03 followed by the SQL text. */
module QueryMessage {
  import opened Wire
  import opened Text

  /** Command byte of COM_QUERY. */
  const ComQuery: byte := 0x03

  /** A packet writer reduced to what a message sees of it: the payload of
      the packet being built and the payloads already flushed. Packet
      headers, splitting of large packets and the socket are not modelled;
      the conversion of a string to bytes by the connection's character set
      is the parameter `encodeString`. */
  class PacketWriter {
    const encodeString: string -> seq<byte>
    var buffer: seq<byte>
    var sent: seq<seq<byte>>

    constructor (encodeString: string -> seq<byte>)
      ensures this.encodeString == encodeString && buffer == [] && sent == []
    {
      this.encodeString := encodeString;
      buffer := [];
      sent := [];
    }

    method InitPacket()
      modifies this
      ensures buffer == [] && sent == old(sent)
    {
      buffer := [];
    }

    method WriteByte(b: byte)
      modifies this
      ensures buffer == old(buffer) + [b] && sent == old(sent)
    {
      buffer := buffer + [b];
    }

    method WriteString(s: string)
      modifies this
      ensures buffer == old(buffer) + encodeString(s) && sent == old(sent)
    {
      buffer := buffer + encodeString(s);
    }

    method Flush()
      modifies this
      ensures sent == old(sent) + [old(buffer)] && buffer == []
    {
      sent := sent + [buffer];
      buffer := [];
    }
  }

  /** Reads the command byte and the body back out of a payload. */
  function ParseCommand(payload: seq<byte>): (r: Option<(byte, seq<byte>)>)
    ensures r.None? <==> payload == []
    ensures r.Some? ==> [r.value.0] + r.value.1 == payload
  {
    if payload == [] then None else Some((payload[0], payload[1..]))
  }

  /** The payload of a COM_QUERY for `sql`. */
  function QueryPayload(encodeString: string -> seq<byte>, sql: string): seq<byte>
  {
    [ComQuery] + encodeString(sql)
  }

  /** The command byte and the SQL text read back from a COM_QUERY payload
      are the ones it was built from. */
  lemma QueryPayloadParses(encodeString: string -> seq<byte>, sql: string)
    ensures ParseCommand(QueryPayload(encodeString, sql)) == Some((ComQuery, encodeString(sql)))
  {
    var p := QueryPayload(encodeString, sql);
    assert p[1..] == encodeString(sql);
  }

  /** Java's `equalsIgnoreCase` compares char by char, accepting a pair when
      the upper-case forms agree or the lower-case forms of the upper-case
      forms agree. Against the upper-case ASCII letter `u` this accepts `u`,
      its lower-case form and, for 'I' only, dotless i (U+0131, whose upper
      case is 'I') and capital I with dot above (U+0130, whose lower case
      is 'i'). No other character maps onto the letters C, O, M, I or T. */
  predicate MatchesUpperLetter(c: char, u: char)
    requires 'A' <= u <= 'Z'
  {
    c == u || c == (u as int + 32) as char
    || (u == 'I' && (c == '\U{0131}' || c == '\U{0130}'))
  }

  const Commit: string := "COMMIT"

  /** `"COMMIT".equalsIgnoreCase(sql)`. */
  predicate IsCommitText(sql: string)
  {
    |sql| == |Commit| && forall i :: 0 <= i < |Commit| ==> MatchesUpperLetter(sql[i], Commit[i])
  }

  /** On ASCII text, being COMMIT ignoring case is exactly having COMMIT as
      its upper-case form. */
  lemma IsCommitAscii(sql: string)
    requires IsAscii(sql)
    ensures IsCommitText(sql) <==> AsciiUpper(sql) == Commit
  {
    if IsCommitText(sql) {
      forall i | 0 <= i < |Commit| ensures AsciiUpper(sql)[i] == Commit[i] {
        assert MatchesUpperLetter(sql[i], Commit[i]);
      }
    }
    if AsciiUpper(sql) == Commit {
      forall i | 0 <= i < |Commit| ensures MatchesUpperLetter(sql[i], Commit[i]) {
        assert AsciiUpperChar(sql[i]) == Commit[i];
      }
    }
  }

  lemma IsCommitExamples()
    ensures IsCommitText("commit") && IsCommitText("CoMmIt") && IsCommitText("COMMIT")
    ensures !IsCommitText("COMMIT WORK") && !IsCommitText("COMMIT ") && !IsCommitText("")
    ensures !IsCommitText("ROLLBACK")
    ensures IsCommitText("comm\U{0131}t") && IsCommitText("COMM\U{0130}T")
  {
    assert !MatchesUpperLetter('R', Commit[0]);
  }

  /** A COM_QUERY message; its SQL text is fixed at construction. */
  class QueryPacket {
    const sql: string

    constructor (sql: string)
      ensures this.sql == sql
    {
      this.sql := sql;
    }

    /** A text query counts as one statement of a batch. */
    function BatchUpdateLength(): (n: int)
      ensures n == 1
    {
      1
    }

    /** The SQL text given to the constructor, unchanged. */
    function Description(): (s: string)
      ensures s == sql
    {
      sql
    }

    predicate IsCommit()
    {
      IsCommitText(sql)
    }

    /** Writes one packet holding 0x03 and the SQL text and flushes it;
        one response packet is expected back. */
    method Encode(writer: PacketWriter) returns (expected: int)
      modifies writer
      ensures expected == 1
      ensures writer.sent == old(writer.sent) + [QueryPayload(writer.encodeString, sql)]
      ensures writer.buffer == []
    {
      writer.InitPacket();
      writer.WriteByte(ComQuery);
      writer.WriteString(sql);
      assert writer.buffer == QueryPayload(writer.encodeString, sql);
      writer.Flush();
      return 1;
    }
  }
}
