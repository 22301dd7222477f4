/**
 * The Server-Sent Events encoder of backend/utils.py (`sse`), the response
 * body made of its frames, and a reader for that body.
 *
 * A frame is the line `data: <payload>` followed by a blank line. A string
 * payload is written as it is; any other payload is first encoded with
 * json.dumps. The reader is the partner of the encoder: as long as no
 * payload contains a line break, it recovers every payload text, in order,
 * from the concatenated frames.
 */
module Sse {
  import opened Wrappers
  import opened Json

  /** The argument of `sse`: a Python str, or any other JSON-serialisable value. */
  datatype Payload = Text(s: string) | Value(j: Json)

  const FieldPrefix: string := "data: "

  /** What follows `data: ` in the frame. */
  function PayloadText(data: Payload, dumps: Json -> string): string {
    match data
    case Text(s) => s
    case Value(j) => dumps(j)
  }

  /** sse(data): one frame, `data: ` then the payload text then a blank line. */
  function Sse(data: Payload, dumps: Json -> string): (r: string)
    ensures |r| == |FieldPrefix| + |PayloadText(data, dumps)| + 2
    ensures r[..|FieldPrefix|] == FieldPrefix
    ensures r[|FieldPrefix|..|r| - 2] == PayloadText(data, dumps)
    ensures r[|r| - 2..] == "\n\n"
  {
    FieldPrefix + PayloadText(data, dumps) + "\n\n"
  }

  /** The body of the streaming response: the frames one after another. */
  function Body(frames: seq<Payload>, dumps: Json -> string): string
    decreases |frames|
  {
    if frames == [] then "" else Sse(frames[0], dumps) + Body(frames[1..], dumps)
  }

  /** The payload texts of a sequence of frames, in order. */
  function Texts(frames: seq<Payload>, dumps: Json -> string): seq<string> {
    seq(|frames|, i requires 0 <= i < |frames| => PayloadText(frames[i], dumps))
  }

  /** Length of the first line of `s`: the index of its first line break, or |s| if it has none. */
  function LineLength(s: string): (n: nat)
    ensures n <= |s|
    ensures forall k :: 0 <= k < n ==> s[k] != '\n'
    ensures n < |s| ==> s[n] == '\n'
    decreases |s|
  {
    if s == [] || s[0] == '\n' then 0 else 1 + LineLength(s[1..])
  }

  /**
   * A reader for bodies made only of `data:` events: each event is one
   * `data: ` line ended by a blank line. None when the body has any other shape.
   */
  function ReadEvents(body: string): Option<seq<string>>
    decreases |body|
  {
    if body == [] then Some([])
    else if |body| < |FieldPrefix| || body[..|FieldPrefix|] != FieldPrefix then None
    else
      var line := body[|FieldPrefix|..];
      var n := LineLength(line);
      if n + 1 < |line| && line[n + 1] == '\n' then
        match ReadEvents(line[n + 2..])
        case None => None
        case Some(rest) => Some([line[..n]] + rest)
      else None
  }

  /** Reading one frame gives back its payload text, and reading goes on right after the frame. */
  lemma ReadFrame(data: Payload, dumps: Json -> string, rest: string)
    requires '\n' !in PayloadText(data, dumps)
    ensures ReadEvents(Sse(data, dumps) + rest) ==
              match ReadEvents(rest)
              case None => None
              case Some(texts) => Some([PayloadText(data, dumps)] + texts)
  {
    var t := PayloadText(data, dumps);
    var body := Sse(data, dumps) + rest;
    assert body == FieldPrefix + (t + "\n\n" + rest);
    var line := body[|FieldPrefix|..];
    assert line == t + "\n\n" + rest;
    assert line[|t|] == '\n';
    var n := LineLength(line);
    assert n == |t|;
    assert line[n + 2..] == rest;
    assert line[..n] == t;
  }

  /**
   * The reader inverts the encoder: when no payload text contains a line
   * break, reading the body recovers exactly the payload texts, in order.
   */
  lemma {:induction false} ReadBody(frames: seq<Payload>, dumps: Json -> string)
    requires forall i :: 0 <= i < |frames| ==> '\n' !in PayloadText(frames[i], dumps)
    ensures ReadEvents(Body(frames, dumps)) == Some(Texts(frames, dumps))
  {
    if frames != [] {
      var later := frames[1..];
      var rest := Body(later, dumps);
      var texts := Texts(later, dumps);
      assert Body(frames, dumps) == Sse(frames[0], dumps) + rest;
      ReadBody(later, dumps);
      assert ReadEvents(rest) == Some(texts);
      ReadFrame(frames[0], dumps, rest);
      assert ReadEvents(Body(frames, dumps)) == Some([PayloadText(frames[0], dumps)] + texts);
      TextsCons(frames, dumps);
    } else {
      assert Texts(frames, dumps) == [];
    }
  }

  /** The texts of a non-empty sequence of frames: the first frame's text, then the others'. */
  lemma TextsCons(frames: seq<Payload>, dumps: Json -> string)
    requires frames != []
    ensures Texts(frames, dumps) == [PayloadText(frames[0], dumps)] + Texts(frames[1..], dumps)
  {
  }

  /** With json.dumps writing single lines, every frame of the body can be read back. */
  lemma ReadBodyOfJson(frames: seq<Payload>, dumps: Json -> string)
    requires SingleLine(dumps)
    requires forall i :: 0 <= i < |frames| && frames[i].Text? ==> '\n' !in frames[i].s
    ensures ReadEvents(Body(frames, dumps)) == Some(Texts(frames, dumps))
  {
    forall i | 0 <= i < |frames|
      ensures '\n' !in PayloadText(frames[i], dumps)
    {
      if frames[i].Value? {
        assert '\n' !in dumps(frames[i].j);
      }
    }
    ReadBody(frames, dumps);
  }
}
