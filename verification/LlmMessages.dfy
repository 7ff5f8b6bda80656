/**
  The messages of a conversation as the providers receive them (LlmMessage, read by
  backend/api/anthropic-provider.cpp and backend/api/gemini-provider.cpp). A stored tool call
  is given by the id, name and input that its conversion to a provider's shape reads out.
 */
module LlmMessages {

  datatype StoredCall = StoredCall(id: string, name: string, input: string)

  datatype Attachment = Attachment(mimeType: string, base64: string)

  datatype Message = Message(role: string, content: string, toolCallId: string,
                             toolCalls: seq<StoredCall>, images: seq<Attachment>)

  /** A tool message that names the call it answers. */
  predicate IsToolResult(msg: Message) {
    msg.role == "tool" && msg.toolCallId != ""
  }
}
