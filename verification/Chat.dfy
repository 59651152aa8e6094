/** Chat messages as the converters produce them and the envelope builder reads them, and the traces of tool activity
    that the two stages must agree on. */
module Chat {
  import opened Text

  datatype Kind = TextPart | ReasoningPart | ImagePart | OtherPart

  /** A content part. `content` is its `content` key as text, when it has one; `url` is its image URL; a part that is not
      an object has none of these. */
  datatype Part = Part(kind: Kind, text: string, content: Option<string>, cache: Option<string>, url: string)

  /** `Scalar` is any other JSON value, as text. */
  datatype Content = NoContent | Text(text: string) | Parts(parts: seq<Part>) | Scalar(shown: string)

  /** A call's arguments: text to be decoded, an object as it is, in encoded form, or anything else. */
  datatype Arguments = Encoded(text: string) | Given(json: string) | Unusable

  datatype Call = Call(id: string, name: string, arguments: Arguments)

  /** The trimmed role; `developer` is a system role too. */
  datatype Role = System | User | Assistant | Tool | OtherRole

  /** A message seen through the keys that are read; an absent key reads as empty. */
  datatype Message = Message(
    role: Role, content: Content, reasoning: string, calls: seq<Call>, callId: string, name: string)

  function TextMessage(role: Role, content: Content): (m: Message)
    ensures m.role == role && m.content == content && m.calls == [] && m.reasoning == m.callId == m.name == ""
  {
    Message(role, content, "", [], "", "")
  }

  // ---- Traces ----

  /** What a conversation does with tools. An output carries the name its message was given, if any. */
  datatype Mark = ACall(call: Call) | AnOutput(callId: string, output: string, given: string)

  function CallMarks(calls: seq<Call>): seq<Mark> {
    seq(|calls|, i requires 0 <= i < |calls| => ACall(calls[i]))
  }

  /** The name of the latest call with this id. */
  function LatestName(trace: seq<Mark>, id: string): Option<string> {
    if trace == [] then None
    else
      var last := trace[|trace| - 1];
      if last.ACall? && last.call.id == id then Some(last.call.name) else LatestName(trace[..|trace| - 1], id)
  }

  lemma LatestNameStep(trace: seq<Mark>, m: Mark, id: string)
    ensures LatestName(trace + [m], id) ==
            if m.ACall? && m.call.id == id then Some(m.call.name) else LatestName(trace, id)
  {
    assert (trace + [m])[..|trace|] == trace;
  }

  lemma CallMarksStep(calls: seq<Call>, k: nat)
    requires k < |calls|
    ensures CallMarks(calls[..k + 1]) == CallMarks(calls[..k]) + [ACall(calls[k])]
  {
  }

  lemma CallMarksAppend(a: seq<Call>, b: seq<Call>)
    ensures CallMarks(a + b) == CallMarks(a) + CallMarks(b)
  {
  }
}
