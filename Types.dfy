/** The records shared by the pages of the simulator: a character profile,
    one line of dialogue, the sentinel sender of narration, and the request
    the setup page hands to the application when a simulation starts. */
module Types {

  datatype Option<T> = None | Some(value: T)

  /** One of the two simulated characters; three free-text fields. */
  datatype CharacterProfile = CharacterProfile(name: string, personality: string, identity: string)

  /** One entry of the dialogue history. `sender` is a character's name or `SystemSender`;
      a message has no identity beyond its position in the history. */
  datatype ChatMessage = ChatMessage(sender: string, text: string)

  /** The sender of injected events and of the engine's own notices. */
  const SystemSender: string := "System"

  /** The arguments of the `onStart` callback: both profiles, the shared worldview,
      the model name and, only when an imported file carried one, a history. */
  datatype StartRequest = StartRequest(
    characterA: CharacterProfile,
    characterB: CharacterProfile,
    worldview: string,
    model: string,
    conversation: Option<seq<ChatMessage>>)
}
