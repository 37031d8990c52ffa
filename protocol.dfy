// Messages from the terminal client to the server, and their conversion to
// the simulation's input conventions.
module Protocol {
  import opened Wrappers
  import opened Text
  import opened InputClassifier

  datatype ClientMessage = ClientMessage(msgType: string, content: string)

  datatype ValidationError = UnknownMessageType(msgType: string) | EmptyContent

  predicate KnownType(t: string)
  {
    t == "speech" || t == "action" || t == "environment"
  }

  /** `ClientMessage.Validate`; `None` is the nil error. The type is checked first. */
  function Validate(m: ClientMessage): (r: Option<ValidationError>)
    ensures r.None? <==> KnownType(m.msgType) && m.content != []
    ensures !KnownType(m.msgType) ==> r == Some(UnknownMessageType(m.msgType))
    ensures KnownType(m.msgType) && m.content == [] ==> r == Some(EmptyContent)
  {
    match m.msgType
    case "speech" | "action" | "environment" =>
      if m.content == "" then Some(EmptyContent) else None
    case _ => Some(UnknownMessageType(m.msgType))
  }

  /** `ClientMessage.ToInputLine`. */
  function ToInputLine(m: ClientMessage): string
  {
    match m.msgType
    case "action" => "*" + m.content + "*"
    case "environment" => "~" + m.content
    case _ => m.content
  }

  /** The input type a message type stands for. */
  function TypeOf(t: string): InputType
  {
    if t == "action" then TypeAction else if t == "environment" then TypeEnvironment else TypeSpeech
  }

  /** Content the classifier would read as something other than speech. */
  predicate LooksMarked(c: string)
  {
    StarWrapped(c) || HasPrefix(c, "~")
  }

  /**
   * A valid message whose content is already trimmed (and, for speech, carries no
   * convention marker of its own) is classified back into its own type and content.
   */
  lemma ToInputLineRoundTrip(m: ClientMessage)
    requires Validate(m).None? && Trimmed(m.content)
    requires m.msgType == "speech" ==> !LooksMarked(m.content)
    ensures ClassifyInput(ToInputLine(m)) == (TypeOf(m.msgType), m.content)
  {
    if m.msgType == "action" {
      ClassifyAction(m.content);
    } else if m.msgType == "environment" {
      ClassifyEnvironment(m.content);
    } else {
      assert TrimSpace(m.content) == m.content;
    }
  }
}
