/**
 * The text codec of the RPC engine: JavaScript's `String.prototype.split` and
 * `Array.prototype.join` on a one-character separator, the UTF-8 byte length
 * that `new Buffer(string)` gives a payload, the request and reply encodings,
 * the parsing of a `host:port` address, and the 500-byte reply substitution.
 */
module Codec {

  datatype Option<+T> = None | Some(value: T)

  /** The field separator of every message. */
  const Comma: char := ','
  /** The separator between host and port in an address. */
  const Colon: char := ':'
  /** The largest payload, in bytes, that the engine sends as it is. */
  const MaxPayload: nat := 500
  /** The error text of an oversized request and the substitute result of an oversized reply. */
  const TooLarge: string := "Payload too large"

  // ---------------------------------------------------------------------
  // Byte length of the UTF-8 encoding
  // ---------------------------------------------------------------------

  /** Number of bytes UTF-8 uses for one character (a Unicode scalar value). */
  function Utf8Width(c: char): (w: nat)
    ensures 1 <= w <= 4
    ensures w == 1 <==> c as int < 0x80
  {
    if c as int < 0x80 then 1
    else if c as int < 0x800 then 2
    else if c as int < 0x10000 then 3
    else 4
  }

  predicate IsAscii(s: string)
  {
    forall i :: 0 <= i < |s| ==> s[i] as int < 0x80
  }

  /** The length of `new Buffer(s)`, the UTF-8 encoding of `s`. */
  function ByteLength(s: string): (n: nat)
    ensures |s| <= n <= 4 * |s|
    ensures n == |s| <==> IsAscii(s)
  {
    if s == [] then 0
    else
      var n := Utf8Width(s[0]) + ByteLength(s[1..]);
      assert IsAscii(s) <==> s[0] as int < 0x80 && IsAscii(s[1..]) by {
        if s[0] as int < 0x80 && IsAscii(s[1..]) {
          forall i | 0 < i < |s| ensures s[i] as int < 0x80 {
            assert s[i] == s[1..][i - 1];
          }
        }
      }
      n
  }

  lemma {:induction false} ByteLengthAppend(a: string, b: string)
    ensures ByteLength(a + b) == ByteLength(a) + ByteLength(b)
  {
    if a != [] {
      assert (a + b)[0] == a[0] && (a + b)[1..] == a[1..] + b;
      ByteLengthAppend(a[1..], b);
    } else {
      assert a + b == b;
    }
  }

  // ---------------------------------------------------------------------
  // split and join
  // ---------------------------------------------------------------------

  /** Position of the first `c` in `s`, or `|s|` when there is none. */
  function IndexOf(s: string, c: char): (i: nat)
    ensures i <= |s|
    ensures i < |s| ==> s[i] == c
    ensures c !in s[..i]
  {
    if s == [] then 0
    else if s[0] == c then 0
    else
      var j := IndexOf(s[1..], c);
      assert s[..j + 1] == [s[0]] + s[1..][..j];
      j + 1
  }

  /** `s.split(sep)`: the pieces of `s` between the separators, at least one. */
  function Split(s: string, sep: char): (r: seq<string>)
    ensures |r| >= 1
    ensures forall k :: 0 <= k < |r| ==> sep !in r[k]
    decreases |s|
  {
    var i := IndexOf(s, sep);
    if i == |s| then [s]
    else [s[..i]] + Split(s[i + 1..], sep)
  }

  /** `fields.join(sep)`; the empty array joins to the empty string. */
  function Join(fields: seq<string>, sep: char): (r: string)
    ensures |fields| >= 1 ==> fields[0] <= r
  {
    if |fields| == 0 then ""
    else if |fields| == 1 then fields[0]
    else fields[0] + [sep] + Join(fields[1..], sep)
  }

  /** The total number of characters in `fields`. */
  function TotalLength(fields: seq<string>): nat
  {
    if fields == [] then 0 else |fields[0]| + TotalLength(fields[1..])
  }

  /** A join is as long as its fields plus one separator between each two. */
  lemma {:induction false} JoinLength(fields: seq<string>, sep: char)
    requires |fields| >= 1
    ensures |Join(fields, sep)| == TotalLength(fields) + |fields| - 1
  {
    if |fields| > 1 {
      JoinLength(fields[1..], sep);
    }
  }

  /** No field contains the separator: the protocol's own constraint on fields. */
  predicate Separable(fields: seq<string>, sep: char)
  {
    forall k :: 0 <= k < |fields| ==> sep !in fields[k]
  }

  lemma IndexOfFirst(a: string, sep: char, t: string)
    requires sep !in a
    ensures IndexOf(a + [sep] + t, sep) == |a|
  {
    var s := a + [sep] + t;
    assert s[|a|] == sep;
  }

  /** Splitting what was joined gives the fields back, when none holds the separator. */
  lemma {:induction false} SplitJoin(fields: seq<string>, sep: char)
    requires |fields| >= 1 && Separable(fields, sep)
    ensures Split(Join(fields, sep), sep) == fields
  {
    if |fields| == 1 {
      assert IndexOf(fields[0], sep) == |fields[0]|;
    } else {
      var a, t := fields[0], Join(fields[1..], sep);
      var s := a + [sep] + t;
      assert Join(fields, sep) == s;
      IndexOfFirst(a, sep, t);
      assert s[..|a|] == a;
      assert s[|a| + 1..] == t;
      assert Split(s, sep) == [a] + Split(t, sep);
      SplitJoin(fields[1..], sep);
      assert fields == [a] + fields[1..];
    }
  }

  /** Joining what was split gives the text back, for every text. */
  lemma {:induction false} JoinSplit(s: string, sep: char)
    ensures Join(Split(s, sep), sep) == s
    decreases |s|
  {
    var i := IndexOf(s, sep);
    if i < |s| {
      var rest := Split(s[i + 1..], sep);
      JoinSplit(s[i + 1..], sep);
      assert Split(s, sep) == [s[..i]] + rest;
      assert ([s[..i]] + rest)[1..] == rest;
      assert s == s[..i] + [sep] + s[i + 1..];
    }
  }

  // ---------------------------------------------------------------------
  // Messages
  // ---------------------------------------------------------------------

  /** A request datagram: `name,id,params...`. */
  function EncodeRequest(name: string, id: string, params: seq<string>): (r: string)
    ensures name + [Comma] <= r
  {
    Join([name, id] + params, Comma)
  }

  /** A reply datagram: `id,results...`. */
  function EncodeReply(id: string, results: seq<string>): (r: string)
    ensures results == [] ==> r == id
    ensures results != [] ==> id + [Comma] <= r
  {
    Join([id] + results, Comma)
  }

  lemma RequestRoundTrip(name: string, id: string, params: seq<string>)
    requires Separable([name, id] + params, Comma)
    ensures var fields := Split(EncodeRequest(name, id, params), Comma);
            |fields| == |params| + 2 && fields[0] == name && fields[1] == id && fields[2..] == params
  {
    SplitJoin([name, id] + params, Comma);
  }

  lemma ReplyRoundTrip(id: string, results: seq<string>)
    requires Separable([id] + results, Comma)
    ensures var fields := Split(EncodeReply(id, results), Comma);
            |fields| == |results| + 1 && fields[0] == id && fields[1..] == results
  {
    SplitJoin([id] + results, Comma);
  }

  /**
   * What the reply function sends: the encoded reply, or, when that is over
   * 500 bytes, the id with the single result "Payload too large" (the
   * substitute is sent without a second size check).
   */
  function ReplyPayload(id: string, results: seq<string>): (r: string)
    ensures id <= r
    ensures ByteLength(r) <= MaxPayload || r == EncodeReply(id, [TooLarge])
  {
    var payload := EncodeReply(id, results);
    if ByteLength(payload) > MaxPayload then EncodeReply(id, [TooLarge]) else payload
  }

  /** The fields a reply carries: the results, or the substitute when they do not fit. */
  lemma ReplyPayloadFields(id: string, results: seq<string>)
    requires Separable([id] + results, Comma)
    ensures Split(ReplyPayload(id, results), Comma)
         == [id] + if ByteLength(EncodeReply(id, results)) > MaxPayload then [TooLarge] else results
  {
    if ByteLength(EncodeReply(id, results)) > MaxPayload {
      assert Comma !in TooLarge;
      SplitJoin([id, TooLarge], Comma);
    } else {
      SplitJoin([id] + results, Comma);
    }
  }

  lemma TooLargeIsAscii()
    ensures ByteLength(TooLarge) == |TooLarge| == 17
  {
    assert IsAscii(TooLarge) by {
      forall i | 0 <= i < |TooLarge| ensures TooLarge[i] as int < 0x80 {
      }
    }
  }

  /** A reply never exceeds 500 bytes as long as the id leaves room for the substitute. */
  lemma ReplyPayloadBound(id: string, results: seq<string>)
    requires ByteLength(id) <= MaxPayload - |TooLarge| - 1
    ensures ByteLength(ReplyPayload(id, results)) <= MaxPayload
  {
    if ByteLength(EncodeReply(id, results)) > MaxPayload {
      assert ([id] + [TooLarge])[1..] == [TooLarge];
      assert Join([TooLarge], Comma) == TooLarge;
      assert EncodeReply(id, [TooLarge]) == id + [Comma] + TooLarge;
      ByteLengthAppend(id, [Comma]);
      ByteLengthAppend(id + [Comma], TooLarge);
      TooLargeIsAscii();
      assert ByteLength([Comma]) == 1;
    }
  }

  // ---------------------------------------------------------------------
  // Addresses
  // ---------------------------------------------------------------------

  /** The two halves of `address.split(":")`; the port is undefined when there is no colon. */
  datatype Endpoint = Endpoint(ip: string, port: Option<string>)

  function ParseAddress(address: string): (e: Endpoint)
    ensures e.ip <= address && Colon !in e.ip
    ensures e.port.Some? ==> Colon !in e.port.value && |e.ip| < |address| && address[|e.ip|] == Colon
  {
    var parts := Split(address, Colon);
    Endpoint(parts[0], if |parts| > 1 then Some(parts[1]) else None)
  }

  lemma ParseAddressRoundTrip(host: string, port: string)
    requires Colon !in host && Colon !in port
    ensures ParseAddress(host + [Colon] + port) == Endpoint(host, Some(port))
  {
    assert Join([host, port], Colon) == host + [Colon] + port;
    SplitJoin([host, port], Colon);
  }

  /** The port is undefined exactly when there is no colon, and then the ip is the whole address. */
  lemma ParseAddressNoPort(address: string)
    ensures ParseAddress(address).port.None? <==> Colon !in address
    ensures Colon !in address ==> ParseAddress(address).ip == address
  {
    if Colon !in address {
      SplitJoin([address], Colon);
    } else {
      JoinSplit(address, Colon);
    }
  }
}
