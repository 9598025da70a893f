/** Chat messages as exchanged with the chat-completion API and kept in the histories. */
module Messages {

  datatype Role = System | User | Assistant

  /** `{role, content}`; the client never changes a message once it is in a history. */
  datatype Message = Message(role: Role, content: string)
}
