/**
 * Control messages sent to the device over the WebSocket: flat objects of
 * command keys mapped to booleans, their `JSON.stringify` text, and the
 * socket's send side (connection set-up and inbound frames are not part
 * of this model).
 */
module Channel {
  import opened Wrappers

  /** The command keys the device understands. */
  datatype Key = AutoOn | AutoOff | RiegoOn | RiegoOff | IlumOn | IlumOff {
    function Name(): (s: string)
      ensures |s| >= 6 && NoQuote(s)
    {
      match this
      case AutoOn => "AUTO_ON"
      case AutoOff => "AUTO_OFF"
      case RiegoOn => "RIEGO_ON"
      case RiegoOff => "RIEGO_OFF"
      case IlumOn => "ILUM_ON"
      case IlumOff => "ILUM_OFF"
    }
  }

  /** The key a member name stands for, if any: the inverse of `Name`. */
  function KeyNamed(name: string): (r: Option<Key>)
    ensures r.Some? ==> r.value.Name() == name
  {
    if name == "AUTO_ON" then Some(AutoOn)
    else if name == "AUTO_OFF" then Some(AutoOff)
    else if name == "RIEGO_ON" then Some(RiegoOn)
    else if name == "RIEGO_OFF" then Some(RiegoOff)
    else if name == "ILUM_ON" then Some(IlumOn)
    else if name == "ILUM_OFF" then Some(IlumOff)
    else None
  }

  lemma KeyNamedName(k: Key)
    ensures KeyNamed(k.Name()) == Some(k)
  {
  }

  predicate NoQuote(s: string) {
    forall i :: 0 <= i < |s| ==> s[i] != '"'
  }

  datatype Entry = Entry(key: Key, value: bool)

  /** A command object; the sequence order is the object's key insertion order. */
  type Command = seq<Entry>

  /** No key occurs twice (a JavaScript object literal cannot hold one key twice). */
  predicate DistinctKeys(c: Command) {
    forall i, j :: 0 <= i < j < |c| ==> c[i].key != c[j].key
  }

  /** `{ AUTO_ON: true }` */
  const AutoOnCommand: Command := [Entry(AutoOn, true)]

  /** `{ AUTO_OFF: true }` */
  const AutoOffCommand: Command := [Entry(AutoOff, true)]

  function SerializeEntry(e: Entry): string {
    "\"" + e.key.Name() + "\":" + (if e.value then "true" else "false")
  }

  function SerializeEntries(c: Command): string {
    if c == [] then ""
    else if |c| == 1 then SerializeEntry(c[0])
    else SerializeEntry(c[0]) + "," + SerializeEntries(c[1..])
  }

  /** `JSON.stringify(c)`: members in insertion order, no white space. */
  function Serialize(c: Command): (s: string)
    ensures |s| >= 2 && s[0] == '{' && s[|s| - 1] == '}'
  {
    "{" + SerializeEntries(c) + "}"
  }

  /** A two-key command is its two members between braces, separated by a comma. */
  lemma SerializePair(a: Entry, b: Entry)
    ensures Serialize([a, b]) == "{" + (SerializeEntry(a) + "," + SerializeEntry(b)) + "}"
  {
    assert [a, b][1..] == [b];
    assert SerializeEntries([b]) == SerializeEntry(b);
  }

  /** Regrouping the text of a member `x` followed by the member `AUTO_OFF`, both `true`, between braces. */
  lemma JoinWithAutoOff(x: string)
    ensures "{" + (("\"" + x + "\":" + "true") + "," + ("\"" + "AUTO_OFF" + "\":" + "true")) + "}" ==
      "{\"" + x + "\":true,\"AUTO_OFF\":true}"
  {
    var q, t, o, c, y := "\"", "\":true", "{", "}", "AUTO_OFF";
    assert "\"" + x + "\":" + "true" == q + x + t;
    assert "\"" + y + "\":" + "true" == q + y + t;
    assert "{\"" == o + q;
    assert "\":true,\"AUTO_OFF\":true}" == t + "," + (q + y + t) + c;
    assert o + ((q + x + t) + "," + (q + y + t)) + c == (o + q) + x + (t + "," + (q + y + t) + c);
  }

  /** A manual command: its own key set to `true`, then `AUTO_OFF` set to `true`. */
  lemma SerializeWithAutoOff(k: Key)
    ensures Serialize([Entry(k, true), Entry(AutoOff, true)]) == "{\"" + k.Name() + "\":true,\"AUTO_OFF\":true}"
  {
    SerializePair(Entry(k, true), Entry(AutoOff, true));
    JoinWithAutoOff(k.Name());
  }

  /** The two automatic-mode commands on the wire. */
  lemma AutoCommandsOnTheWire()
    ensures Serialize(AutoOnCommand) == "{\"AUTO_ON\":true}"
    ensures Serialize(AutoOffCommand) == "{\"AUTO_OFF\":true}"
  {
  }

  // ----- reading a payload back -----

  /** The position of the first `c` in `s`, or `|s|` when there is none. */
  function IndexOf(s: string, c: char): (r: nat)
    ensures r <= |s| && (r < |s| ==> s[r] == c)
    ensures forall i :: 0 <= i < r ==> s[i] != c
  {
    if s == [] then 0 else if s[0] == c then 0 else 1 + IndexOf(s[1..], c)
  }

  /** The first `c` is the one right after a run free of `c`. */
  lemma IndexOfAfter(a: string, c: char, b: string)
    requires forall i :: 0 <= i < |a| ==> a[i] != c
    ensures IndexOf(a + [c] + b, c) == |a|
  {
    var s := a + [c] + b;
    var r := IndexOf(s, c);
    assert s[|a|] == c;
  }

  /** One member `"NAME":true` or `"NAME":false` at the front of `s`, and what follows it. */
  function ParseEntry(s: string): (r: Option<(Entry, string)>)
    ensures r.Some? ==> |r.value.1| < |s|
  {
    if |s| == 0 || s[0] != '"' then None
    else
      var j := IndexOf(s[1..], '"');
      if j == |s| - 1 then None
      else
        match KeyNamed(s[1..1 + j])
        case None => None
        case Some(k) => ParseValue(k, s[j + 2..])
  }

  /** The `:true` or `:false` after the member name `k`, and what follows it. */
  function ParseValue(k: Key, rest: string): (r: Option<(Entry, string)>)
    ensures r.Some? ==> |r.value.1| < |rest|
  {
    if |rest| >= 5 && rest[..5] == ":true" then Some((Entry(k, true), rest[5..]))
    else if |rest| >= 6 && rest[..6] == ":false" then Some((Entry(k, false), rest[6..]))
    else None
  }

  /** A comma-separated run of members. */
  function ParseEntries(s: string): Option<Command>
    decreases |s|
  {
    if s == "" then Some([])
    else
      match ParseEntry(s)
      case None => None
      case Some((e, rest)) =>
        if rest == "" then Some([e])
        else if |rest| > 1 && rest[0] == ',' then
          match ParseEntries(rest[1..])
          case None => None
          case Some(es) => Some([e] + es)
        else None
  }

  /** `JSON.parse` of a command object. */
  function Parse(s: string): Option<Command> {
    if |s| >= 2 && s[0] == '{' && s[|s| - 1] == '}' then ParseEntries(s[1..|s| - 1]) else None
  }

  /** A value reads back as itself, leaving whatever followed it. */
  lemma ParseValueRoundTrip(k: Key, b: bool, t: string)
    ensures ParseValue(k, ":" + (if b then "true" else "false") + t) == Some((Entry(k, b), t))
  {
    var rest := ":" + (if b then "true" else "false") + t;
    if b {
      assert rest[..5] == ":true" && rest[5..] == t;
    } else {
      assert rest[..5] != ":true" by { assert rest[1] == 'f'; }
      assert rest[..6] == ":false" && rest[6..] == t;
    }
  }

  /** A quoted name free of quotes is found by the scan for the closing quote. */
  lemma QuotedName(name: string, after: string)
    requires NoQuote(name)
    ensures var s := "\"" + name + "\"" + after;
      |s| > 0 && s[0] == '"' && IndexOf(s[1..], '"') == |name| < |s| - 1 &&
      s[1..1 + |name|] == name && s[|name| + 2..] == after
  {
    var s := "\"" + name + "\"" + after;
    assert s[1..] == name + ['"'] + after;
    IndexOfAfter(name, '"', after);
    assert s[1..1 + |name|] == name;
    assert s[|name| + 2..] == after;
  }

  /** A member reads back as itself, leaving whatever followed it. */
  lemma ParseEntryRoundTrip(e: Entry, t: string)
    ensures ParseEntry(SerializeEntry(e) + t) == Some((e, t))
  {
    var name := e.key.Name();
    var after := ":" + (if e.value then "true" else "false") + t;
    assert SerializeEntry(e) + t == "\"" + name + "\"" + after;
    QuotedName(name, after);
    KeyNamedName(e.key);
    ParseValueRoundTrip(e.key, e.value, t);
  }

  /** A non-empty run of members starts with a quote. */
  lemma SerializeEntriesStart(c: Command)
    requires c != []
    ensures |SerializeEntries(c)| > 0 && SerializeEntries(c)[0] == '"'
  {
    if |c| > 1 {
      assert SerializeEntries(c) == SerializeEntry(c[0]) + "," + SerializeEntries(c[1..]);
    }
  }

  lemma {:induction false} ParseEntriesRoundTrip(c: Command)
    ensures ParseEntries(SerializeEntries(c)) == Some(c)
    decreases |c|
  {
    if c == [] {
    } else if |c| == 1 {
      ParseEntryRoundTrip(c[0], "");
      assert SerializeEntry(c[0]) + "" == SerializeEntries(c);
      assert c == [c[0]];
    } else {
      var tail := SerializeEntries(c[1..]);
      SerializeEntriesStart(c[1..]);
      ParseEntryRoundTrip(c[0], "," + tail);
      assert SerializeEntries(c) == SerializeEntry(c[0]) + ("," + tail);
      ParseEntriesRoundTrip(c[1..]);
      assert ("," + tail)[1..] == tail;
      assert [c[0]] + c[1..] == c;
    }
  }

  /** Every command reads back from its payload, so distinct commands have distinct payloads. */
  lemma ParseSerialize(c: Command)
    ensures Parse(Serialize(c)) == Some(c)
  {
    var s := Serialize(c);
    assert s[1..|s| - 1] == SerializeEntries(c);
    ParseEntriesRoundTrip(c);
  }

  lemma SerializeInjective(c1: Command, c2: Command)
    requires Serialize(c1) == Serialize(c2)
    ensures c1 == c2
  {
    ParseSerialize(c1);
    ParseSerialize(c2);
  }

  /** The send side of a browser `WebSocket`. */
  class Socket {
    /** `readyState === WebSocket.OPEN` */
    var open: bool
    /** Every payload handed to `send`, oldest first. */
    var sent: seq<string>

    constructor (open: bool)
      ensures this.open == open && sent == []
    {
      this.open := open;
      sent := [];
    }

    /** `ws.send(payload)` on an open socket. */
    method Send(payload: string)
      requires open
      modifies this`sent
      ensures sent == old(sent) + [payload]
    {
      sent := sent + [payload];
    }
  }

  /** `ws && ws.readyState === WebSocket.OPEN` */
  predicate IsOpen(ws: Socket?)
    reads ws
  {
    ws != null && ws.open
  }
}
