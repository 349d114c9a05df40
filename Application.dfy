/** The application shell: which page is shown, the settings handed from the setup
    page to the conversation page, and the colour theme.

    The theme is kept as the string the app stores, because the saved value is read
    back without checking that it is one of the three themes. */
module Application {
  import opened Types

  datatype View = SetupPage | ConversationPage

  const SystemTheme: string := "system"
  const LightTheme: string := "light"
  const DarkTheme: string := "dark"
  const InitialModel: string := "gemini-2.5-flash"

  predicate IsTheme(t: string) {
    t == SystemTheme || t == LightTheme || t == DarkTheme
  }

  /** The theme button: system, then light, then dark, then system again. Any other
      stored value also moves on to system. */
  function NextTheme(t: string): (r: string)
    ensures IsTheme(r) && r != t
    ensures t == SystemTheme ==> r == LightTheme
    ensures t == LightTheme ==> r == DarkTheme
    ensures t != SystemTheme && t != LightTheme ==> r == SystemTheme
  {
    if t == SystemTheme then LightTheme
    else if t == LightTheme then DarkTheme
    else SystemTheme
  }

  /** The theme at start-up: the saved value when there is a non-empty one, else system. */
  function InitialTheme(saved: Option<string>): (r: string)
    ensures saved.Some? && saved.value != "" ==> r == saved.value
    ensures saved.None? || saved.value == "" ==> r == SystemTheme
    ensures r != ""
  {
    match saved
    case Some(t) => if t != "" then t else SystemTheme
    case None => SystemTheme
  }

  /** Three presses of the theme button return to any of the three themes, passing
      through the other two. */
  lemma ThemeCycle(t: string)
    requires IsTheme(t)
    ensures NextTheme(NextTheme(NextTheme(t))) == t
    ensures {t, NextTheme(t), NextTheme(NextTheme(t))} == {SystemTheme, LightTheme, DarkTheme}
  {
  }

  /** After one press, whatever was stored, the theme is one of the three and cycles. */
  lemma AnyStoredThemeJoinsCycle(t: string)
    ensures IsTheme(NextTheme(t))
    ensures NextTheme(NextTheme(NextTheme(NextTheme(t)))) == NextTheme(t)
  {
    ThemeCycle(NextTheme(t));
  }

  class App {
    var view: View
    var characters: Option<(CharacterProfile, CharacterProfile)>
    var worldview: string
    var model: string
    var conversationHistory: Option<seq<ChatMessage>>
    var theme: string

    /** The conversation page is only shown with characters to show. */
    ghost predicate Valid()
      reads this
    {
      view == ConversationPage ==> characters.Some?
    }

    /** Whether the conversation page is rendered: on that view, with characters. */
    function ShowsConversation(): (r: bool)
      reads this
      ensures r ==> view == ConversationPage && characters.Some?
      ensures Valid() ==> (r <==> view == ConversationPage)
    {
      view == ConversationPage && characters.Some?
    }

    constructor (savedTheme: Option<string>)
      ensures Valid()
      ensures view == SetupPage && characters.None? && worldview == "" && model == InitialModel
      ensures conversationHistory.None? && theme == InitialTheme(savedTheme)
    {
      view := SetupPage;
      characters := None;
      worldview := "";
      model := InitialModel;
      conversationHistory := None;
      theme := InitialTheme(savedTheme);
    }

    /** The theme button. */
    method ChangeTheme()
      modifies this
      ensures theme == NextTheme(old(theme)) && IsTheme(theme)
      ensures view == old(view) && characters == old(characters) && worldview == old(worldview)
      ensures model == old(model) && conversationHistory == old(conversationHistory)
    {
      theme := NextTheme(theme);
    }

    /** The setup page's start callback: stores exactly what it is given and shows the
        conversation page. */
    method SimulationStart(request: StartRequest)
      modifies this
      ensures Valid() && ShowsConversation()
      ensures characters == Some((request.characterA, request.characterB))
      ensures worldview == request.worldview && model == request.model
      ensures conversationHistory == request.conversation
      ensures view == ConversationPage && theme == old(theme)
    {
      characters := Some((request.characterA, request.characterB));
      worldview := request.worldview;
      model := request.model;
      conversationHistory := request.conversation;
      view := ConversationPage;
    }

    /** The conversation page's back button: forgets the characters, the worldview and
        the history and shows the setup page; the model and theme stay. */
    method BackToSetup()
      modifies this
      ensures Valid() && !ShowsConversation()
      ensures characters.None? && worldview == "" && conversationHistory.None? && view == SetupPage
      ensures model == old(model) && theme == old(theme)
    {
      characters := None;
      worldview := "";
      conversationHistory := None;
      view := SetupPage;
    }
  }
}
