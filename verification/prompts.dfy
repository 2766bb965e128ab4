/**
 * The message list handed to a language model (the `jpf.Message` records
 * of the Go code) and the string joining the encoders use.
 */
module Prompts {

  /** The three roles a backend message can have. */
  datatype Role = SystemRole | UserRole | AssistantRole

  /** One role+text entry of the list sent to a model. */
  datatype PromptMessage = PromptMessage(role: Role, content: string)

  /** `strings.Join`: the parts with `sep` between consecutive ones. */
  function Join(parts: seq<string>, sep: string): (r: string)
    ensures |parts| == 0 ==> r == ""
    ensures |parts| == 1 ==> r == parts[0]
  {
    if |parts| == 0 then ""
    else if |parts| == 1 then parts[0]
    else Join(parts[..|parts| - 1], sep) + sep + parts[|parts| - 1]
  }

  /** Joining one more part appends the separator and that part. */
  lemma JoinSnoc(parts: seq<string>, sep: string, p: string)
    requires |parts| > 0
    ensures Join(parts + [p], sep) == Join(parts, sep) + sep + p
  {
    assert (parts + [p])[..|parts|] == parts;
  }
}
