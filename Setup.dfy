/** The setup page: the two profiles, the worldview and the model name the user
    edits before a simulation, the model selector, the start check, and the
    reconciliation of an imported settings file with what is already set up.

    An imported file is taken as already decoded into a record whose fields may
    be absent (`Upload`). The page is a class whose fields are the page's state;
    `State()` gives a snapshot of them so each handler can state its whole
    effect as an update of the old snapshot. */
module Setup {
  import opened Types

  const PredefinedModels: seq<string> :=
    ["gemini-2.5-flash", "gemini-2.5-pro", "gemini-2.5-flash-lite", "gemini-2.0-flash"]
  /** The selector entry that reveals the free-text model field. */
  const CustomModelValue: string := "custom"
  /** The model a clear-and-apply falls back to. */
  const DefaultModel: string := "gemini-2.5-flash"

  const MissingFieldsError: string := "所有欄位（包括世界觀和模型）都必須填寫。"
  const InvalidFormatError: string := "無效的檔案格式。請確認檔案包含角色與世界觀設定。"
  const UnreadableFileError: string := "讀取檔案失敗。請確認檔案為正確的 JSON 格式。"

  const BlankProfile: CharacterProfile := CharacterProfile("", "", "")

  /** A character object as found in an imported file: any field may be missing. */
  datatype UploadedProfile = UploadedProfile(name: Option<string>, identity: Option<string>, personality: Option<string>)

  /** A decoded settings file: every top-level field may be missing. */
  datatype Upload = Upload(
    charA: Option<UploadedProfile>,
    charB: Option<UploadedProfile>,
    worldview: Option<string>,
    model: Option<string>,
    conversation: Option<seq<ChatMessage>>)

  /** What reading the chosen file gives: a decoded record, or text that is not JSON. */
  datatype FileContent = Parsed(data: Upload) | Unparsable

  /** A complete imported session with a non-empty history, kept while the user
      chooses how to import it. */
  datatype SimulationData = SimulationData(
    charA: CharacterProfile,
    charB: CharacterProfile,
    worldview: string,
    model: string,
    conversation: seq<ChatMessage>)

  /** JavaScript truthiness of an optional string: present and not empty. */
  predicate Truthy(o: Option<string>) {
    o.Some? && o.value != ""
  }

  /** `o || fallback` on an optional string. */
  function OrElse(o: Option<string>, fallback: string): string {
    if Truthy(o) then o.value else fallback
  }

  /** The selector entry shown for a model name: the name itself when it is one of
      the predefined models, "custom" otherwise. */
  function SelectorFor(model: string): (r: string)
    ensures r in PredefinedModels || r == CustomModelValue
    ensures r in PredefinedModels <==> model in PredefinedModels
    ensures r in PredefinedModels ==> r == model
  {
    if model in PredefinedModels then model else CustomModelValue
  }

  /** The selector shows the model itself, or "custom". */
  predicate SelectorShows(model: string, selected: string) {
    selected == CustomModelValue || (selected in PredefinedModels && selected == model)
  }

  /** `isCompleteChar`: the character object is there and its three fields are truthy. */
  predicate IsCompleteChar(c: Option<UploadedProfile>) {
    c.Some? && Truthy(c.value.name) && Truthy(c.value.identity) && Truthy(c.value.personality)
  }

  function ToProfile(c: UploadedProfile): CharacterProfile
    requires IsCompleteChar(Some(c))
  {
    CharacterProfile(c.name.value, c.personality.value, c.identity.value)
  }

  /** A profile written into a file: all three fields present. */
  function AsUploaded(p: CharacterProfile): UploadedProfile {
    UploadedProfile(Some(p.name), Some(p.identity), Some(p.personality))
  }

  /** The record the download buttons write; the setup page writes no history. */
  function Exported(a: CharacterProfile, b: CharacterProfile, worldview: string, model: string,
                    conversation: Option<seq<ChatMessage>>): Upload
  {
    Upload(Some(AsUploaded(a)), Some(AsUploaded(b)), Some(worldview), Some(model), conversation)
  }

  /** The start check: the six profile fields, the worldview and the model must all be
      non-empty, which is to say both profiles are complete in the importer's sense. */
  function StartAllowed(a: CharacterProfile, b: CharacterProfile, worldview: string, model: string): (r: bool)
    ensures r <==> IsCompleteChar(Some(AsUploaded(a))) && IsCompleteChar(Some(AsUploaded(b)))
                   && worldview != "" && model != ""
  {
    !(a.name == "" || a.identity == "" || a.personality == ""
      || b.name == "" || b.identity == "" || b.personality == "" || worldview == "" || model == "")
  }

  predicate HasConversation(d: Upload) {
    d.conversation.Some? && |d.conversation.value| > 0
  }

  predicate HasCompleteSettings(d: Upload) {
    IsCompleteChar(d.charA) && IsCompleteChar(d.charB) && d.worldview.Some? && d.model.Some?
  }

  /** `hasAnyValidKey`: a character object, or a worldview or model field (even an empty one). */
  predicate HasAnyValidKey(d: Upload) {
    d.charA.Some? || d.charB.Some? || d.worldview.Some? || d.model.Some?
  }

  datatype UploadKind = WithConversation | CompleteSettings | PartialSettings | InvalidFormat

  /** Which branch of the importer a decoded file takes. The four kinds partition all
      records: a history only matters next to complete settings, and an incomplete file
      with a history is treated like one without. */
  function Classify(d: Upload): (k: UploadKind)
    ensures k == WithConversation <==> HasConversation(d) && HasCompleteSettings(d)
    ensures k == CompleteSettings <==> !HasConversation(d) && HasCompleteSettings(d)
    ensures k == PartialSettings <==> !HasCompleteSettings(d) && HasAnyValidKey(d)
    ensures k == InvalidFormat <==> !HasAnyValidKey(d)
  {
    if HasConversation(d) && HasCompleteSettings(d) then WithConversation
    else if HasCompleteSettings(d) then CompleteSettings
    else if HasAnyValidKey(d) then PartialSettings
    else InvalidFormat
  }

  /** The session a file of the first kind carries. */
  function UploadedSession(d: Upload): (s: SimulationData)
    requires HasConversation(d) && HasCompleteSettings(d)
    ensures |s.conversation| > 0
  {
    SimulationData(ToProfile(d.charA.value), ToProfile(d.charB.value), d.worldview.value, d.model.value,
                   d.conversation.value)
  }

  /** `{...prev, ...up}`: every field the uploaded object has replaces the old one, even
      with an empty string; every field it lacks keeps its old value; spreading no object
      changes nothing. */
  function MergeProfile(prev: CharacterProfile, up: Option<UploadedProfile>): (r: CharacterProfile)
    ensures up.None? ==> r == prev
    ensures up.Some? ==>
      && r.name == (if up.value.name.Some? then up.value.name.value else prev.name)
      && r.identity == (if up.value.identity.Some? then up.value.identity.value else prev.identity)
      && r.personality == (if up.value.personality.Some? then up.value.personality.value else prev.personality)
  {
    match up
    case None => prev
    case Some(u) =>
      CharacterProfile(
        match u.name { case Some(v) => v case None => prev.name },
        match u.personality { case Some(v) => v case None => prev.personality },
        match u.identity { case Some(v) => v case None => prev.identity })
  }

  /** `{...blankProfile, ...up}`: fields the upload lacks become empty. */
  function ClearProfile(up: Option<UploadedProfile>): (r: CharacterProfile)
    ensures r.name == (if up.Some? && up.value.name.Some? then up.value.name.value else "")
    ensures r.identity == (if up.Some? && up.value.identity.Some? then up.value.identity.value else "")
    ensures r.personality == (if up.Some? && up.value.personality.Some? then up.value.personality.value else "")
  {
    MergeProfile(BlankProfile, up)
  }

  /** Merging the same upload twice is merging it once. */
  lemma MergeIdempotent(prev: CharacterProfile, up: Option<UploadedProfile>)
    ensures MergeProfile(MergeProfile(prev, up), up) == MergeProfile(prev, up)
  {
  }

  /** For a complete character object the two reconciliations agree: whatever was there
      before, the result is the uploaded profile. */
  lemma CompleteUploadOverridesAll(prev: CharacterProfile, u: UploadedProfile)
    requires IsCompleteChar(Some(u))
    ensures MergeProfile(prev, Some(u)) == ToProfile(u)
    ensures ClearProfile(Some(u)) == ToProfile(u)
  {
  }

  /** The worked example of merge versus replace: an existing X/Y/Z and an upload that
      only names the character. */
  lemma MergeVersusClearExample()
    ensures MergeProfile(CharacterProfile("X", "Z", "Y"), Some(UploadedProfile(Some("X2"), None, None)))
            == CharacterProfile("X2", "Z", "Y")
    ensures ClearProfile(Some(UploadedProfile(Some("X2"), None, None))) == CharacterProfile("X2", "", "")
  {
  }

  /** Exporting complete settings from the setup page and importing the file applies
      exactly the exported profiles. */
  lemma SettingsExportRoundTrip(a: CharacterProfile, b: CharacterProfile, worldview: string, model: string)
    requires IsCompleteChar(Some(AsUploaded(a))) && IsCompleteChar(Some(AsUploaded(b)))
    ensures Classify(Exported(a, b, worldview, model, None)) == CompleteSettings
    ensures ToProfile(AsUploaded(a)) == a && ToProfile(AsUploaded(b)) == b
  {
  }

  /** Exporting from the conversation page (complete profiles, non-empty history) and
      importing the file offers exactly the exported session. */
  lemma SessionExportRoundTrip(a: CharacterProfile, b: CharacterProfile, worldview: string, model: string,
                               history: seq<ChatMessage>)
    requires IsCompleteChar(Some(AsUploaded(a))) && IsCompleteChar(Some(AsUploaded(b)))
    requires history != []
    ensures Classify(Exported(a, b, worldview, model, Some(history))) == WithConversation
    ensures UploadedSession(Exported(a, b, worldview, model, Some(history)))
            == SimulationData(a, b, worldview, model, history)
  {
  }

  /** Exporting from the conversation page after every line was deleted writes an empty
      history; importing that file applies the complete settings and drops the history,
      so the conversation page would start over from its start notice. */
  lemma EmptyHistoryExportDropsHistory(a: CharacterProfile, b: CharacterProfile, worldview: string, model: string)
    requires IsCompleteChar(Some(AsUploaded(a))) && IsCompleteChar(Some(AsUploaded(b)))
    ensures Classify(Exported(a, b, worldview, model, Some([]))) == CompleteSettings
    ensures ToProfile(AsUploaded(a)) == a && ToProfile(AsUploaded(b)) == b
  {
  }

  /** Exporting settings with an incomplete profile and importing the file yields a
      partial upload, and merging it restores every exported field, whatever was set. */
  lemma IncompleteExportMergesBack(a: CharacterProfile, b: CharacterProfile, worldview: string, model: string,
                                   history: Option<seq<ChatMessage>>, prevA: CharacterProfile, prevB: CharacterProfile)
    requires !IsCompleteChar(Some(AsUploaded(a))) || !IsCompleteChar(Some(AsUploaded(b)))
    ensures Classify(Exported(a, b, worldview, model, history)) == PartialSettings
    ensures MergeProfile(prevA, Some(AsUploaded(a))) == a && MergeProfile(prevB, Some(AsUploaded(b))) == b
  {
  }

  /** A snapshot of the page's state fields. */
  datatype SetupState = SetupState(
    characterA: CharacterProfile,
    characterB: CharacterProfile,
    worldview: string,
    model: string,
    selectedModelOption: string,
    error: string,
    partialUploadData: Option<Upload>,
    uploadWithConversationData: Option<SimulationData>)

  /** The guard of the settings loader: both saved character objects are there and have
      a truthy name. Identity and personality are not looked at, so this is weaker than
      the importer's completeness test. */
  function SavedProfilesUsable(d: Upload): (r: bool)
    ensures IsCompleteChar(d.charA) && IsCompleteChar(d.charB) ==> r
    ensures r ==> d.charA.Some? && d.charA.value.name.Some? && d.charA.value.name.value != ""
    ensures r ==> d.charB.Some? && d.charB.value.name.Some? && d.charB.value.name.value != ""
  {
    d.charA.Some? && Truthy(d.charA.value.name) && d.charB.Some? && Truthy(d.charB.value.name)
  }

  /** The page's state after the mount effect has read the stored settings (`None`: nothing
      stored). Usable profiles replace both characters; a stored worldview replaces the
      worldview and a stored model goes through the model setter; otherwise nothing
      changes. The error and both pending uploads are never touched. */
  function LoadedState(s: SetupState, saved: Option<FileContent>): (r: SetupState)
    ensures r.error == s.error && r.partialUploadData == s.partialUploadData
    ensures r.uploadWithConversationData == s.uploadWithConversationData
    ensures !(saved.Some? && saved.value.Parsed? && SavedProfilesUsable(saved.value.data)) ==> r == s
    ensures saved.Some? && saved.value.Parsed? && SavedProfilesUsable(saved.value.data) ==>
      var d := saved.value.data;
      && r.characterA == ClearProfile(d.charA) && r.characterB == ClearProfile(d.charB)
      && r.worldview == (if d.worldview.Some? then d.worldview.value else s.worldview)
      && r.model == (if d.model.Some? then d.model.value else s.model)
      && r.selectedModelOption == (if d.model.Some? then SelectorFor(d.model.value) else s.selectedModelOption)
    ensures SelectorShows(s.model, s.selectedModelOption) ==> SelectorShows(r.model, r.selectedModelOption)
  {
    match saved
    case Some(Parsed(d)) =>
      if SavedProfilesUsable(d) then
        var profiles := s.(characterA := ClearProfile(d.charA), characterB := ClearProfile(d.charB));
        var withWorldview := if d.worldview.Some? then profiles.(worldview := d.worldview.value) else profiles;
        if d.model.Some? then
          withWorldview.(model := d.model.value, selectedModelOption := SelectorFor(d.model.value))
        else withWorldview
      else s
    case _ => s
  }

  /** The settings the page stores after every change are read back exactly at the next
      mount, provided both names are non-empty. */
  lemma SaveLoadRoundTrip(s: SetupState, a: CharacterProfile, b: CharacterProfile, worldview: string, model: string)
    requires a.name != "" && b.name != ""
    ensures LoadedState(s, Some(Parsed(Exported(a, b, worldview, model, None))))
            == s.(characterA := a, characterB := b, worldview := worldview, model := model,
                  selectedModelOption := SelectorFor(model))
  {
  }

  /** After loading stored settings with both profiles, a worldview and a model, the start
      check passes exactly when the stored file would have been complete settings with a
      non-empty worldview and model for the importer. */
  lemma LoadedStartableIffComplete(s: SetupState, d: Upload)
    requires SavedProfilesUsable(d) && d.worldview.Some? && d.model.Some?
    ensures var r := LoadedState(s, Some(Parsed(d)));
            StartAllowed(r.characterA, r.characterB, r.worldview, r.model)
            <==> HasCompleteSettings(d) && d.worldview.value != "" && d.model.value != ""
  {
  }

  /** Stored profiles that only carry names are loaded, and leave the page unable to
      start whatever it showed before. */
  lemma NamesOnlyLoadUnstartable(s: SetupState)
    ensures var d := Upload(Some(UploadedProfile(Some("X"), None, None)), Some(UploadedProfile(Some("Y"), None, None)),
                            None, None, None);
            var r := LoadedState(s, Some(Parsed(d)));
            && r.characterA == CharacterProfile("X", "", "") && r.characterB == CharacterProfile("Y", "", "")
            && !StartAllowed(r.characterA, r.characterB, r.worldview, r.model)
  {
  }

  class CharacterSetup {
    var characterA: CharacterProfile
    var characterB: CharacterProfile
    var worldview: string
    var model: string
    var selectedModelOption: string
    var error: string
    var partialUploadData: Option<Upload>
    var uploadWithConversationData: Option<SimulationData>

    function State(): SetupState
      reads this
    {
      SetupState(characterA, characterB, worldview, model, selectedModelOption, error,
                 partialUploadData, uploadWithConversationData)
    }

    /** The selector agrees with the model; a pending partial upload is one the importer
        classified as partial; a pending session has a history. */
    ghost predicate Valid()
      reads this
    {
      && SelectorShows(model, selectedModelOption)
      && (partialUploadData.Some? ==> Classify(partialUploadData.value) == PartialSettings)
      && (uploadWithConversationData.Some? ==> |uploadWithConversationData.value.conversation| > 0)
    }

    /** The page's initial settings (the sample starship crew), as on a first visit;
        `LoadSavedSettings` then replaces them with what an earlier visit stored. */
    constructor ()
      ensures Valid()
      ensures model == DefaultModel && selectedModelOption == DefaultModel && error == ""
      ensures partialUploadData.None? && uploadWithConversationData.None?
      ensures StartAllowed(characterA, characterB, worldview, model)
    {
      characterA := CharacterProfile("伊娃船長",
                                     "謹慎、有邏輯、被過去的失敗所困擾，深切關心她的船員。",
                                     "「奧德賽號」星艦上堅忍的船長");
      characterB := CharacterProfile("J-4X",
                                     "好奇、天真、遵循邏輯得出荒謬的結論，不斷尋求理解人類情感。",
                                     "「奧德賽號」上過度樂觀的安卓助理");
      worldview := "在一艘名為「奧德賽號」的孤獨星艦上，它正穿越一個未知的小行星帶。通訊系統已損壞，船員們只能依靠自己。";
      model := DefaultModel;
      selectedModelOption := DefaultModel;
      error := "";
      partialUploadData := None;
      uploadWithConversationData := None;
    }

    /** The mount effect: reading back the settings stored by an earlier visit. Nothing
        stored, text that is not JSON, or profiles without both names leave the page as
        it is. */
    method LoadSavedSettings(saved: Option<FileContent>)
      requires Valid()
      modifies this
      ensures Valid()
      ensures State() == LoadedState(old(State()), saved)
    {
      match saved {
        case Some(Parsed(d)) =>
          if d.charA.Some? && Truthy(d.charA.value.name) && d.charB.Some? && Truthy(d.charB.value.name) {
            characterA := ClearProfile(d.charA);
            characterB := ClearProfile(d.charB);
            if d.worldview.Some? {
              worldview := d.worldview.value;
            }
            if d.model.Some? {
              UpdateModelStates(d.model.value);
            }
          }
        case _ =>
      }
    }

    /** Storing a model name verbatim and pointing the selector at it, or at "custom". */
    method UpdateModelStates(newModel: string)
      requires Valid()
      modifies this
      ensures Valid()
      ensures State() == old(State()).(model := newModel, selectedModelOption := SelectorFor(newModel))
    {
      model := newModel;
      if newModel in PredefinedModels {
        selectedModelOption := newModel;
      } else {
        selectedModelOption := CustomModelValue;
      }
    }

    /** Choosing a selector entry: a predefined model is stored; "custom" keeps the model. */
    method ModelSelectChange(value: string)
      requires Valid()
      requires value in PredefinedModels || value == CustomModelValue
      modifies this
      ensures Valid()
      ensures value == CustomModelValue ==> State() == old(State()).(selectedModelOption := value)
      ensures value != CustomModelValue ==> State() == old(State()).(selectedModelOption := value, model := value)
    {
      selectedModelOption := value;
      if value != CustomModelValue {
        model := value;
      }
    }

    /** Typing into the free-text model field, which is shown only under "custom". */
    method SetCustomModel(value: string)
      requires Valid() && selectedModelOption == CustomModelValue
      modifies this
      ensures Valid()
      ensures State() == old(State()).(model := value)
    {
      model := value;
    }

    /** Typing into the worldview field. */
    method SetWorldview(value: string)
      requires Valid()
      modifies this
      ensures Valid()
      ensures State() == old(State()).(worldview := value)
    {
      worldview := value;
    }

    /** Editing the first character's form. */
    method SetCharacterA(p: CharacterProfile)
      requires Valid()
      modifies this
      ensures Valid()
      ensures State() == old(State()).(characterA := p)
    {
      characterA := p;
    }

    /** Editing the second character's form. */
    method SetCharacterB(p: CharacterProfile)
      requires Valid()
      modifies this
      ensures Valid()
      ensures State() == old(State()).(characterB := p)
    {
      characterB := p;
    }

    /** The start button: refused with an error unless every field is filled; otherwise
        the error is cleared and the start request carries the settings and no history. */
    method Start() returns (request: Option<StartRequest>)
      requires Valid()
      modifies this
      ensures Valid()
      ensures !StartAllowed(old(characterA), old(characterB), old(worldview), old(model)) ==>
                request.None? && State() == old(State()).(error := MissingFieldsError)
      ensures StartAllowed(old(characterA), old(characterB), old(worldview), old(model)) ==>
                && request == Some(StartRequest(characterA, characterB, worldview, model, None))
                && State() == old(State()).(error := "")
    {
      if characterA.name == "" || characterA.identity == "" || characterA.personality == ""
         || characterB.name == "" || characterB.identity == "" || characterB.personality == ""
         || worldview == "" || model == ""
      {
        error := MissingFieldsError;
        return None;
      }
      error := "";
      request := Some(StartRequest(characterA, characterB, worldview, model, None));
    }

    /** Importing a file. Text that is not JSON and a record with no recognised field only
        set the error. A complete file with a history is only held for the user's choice.
        A complete file without one replaces all four settings and drops any pending partial
        upload. Anything else with a recognised field becomes the pending partial upload. */
    method FileUpload(content: FileContent)
      requires Valid()
      modifies this
      ensures Valid()
      ensures content.Unparsable? ==> State() == old(State()).(error := UnreadableFileError)
      ensures content.Parsed? && Classify(content.data) == InvalidFormat ==>
                State() == old(State()).(error := InvalidFormatError)
      ensures content.Parsed? && Classify(content.data) == WithConversation ==>
                State() == old(State()).(uploadWithConversationData := Some(UploadedSession(content.data)))
      ensures content.Parsed? && Classify(content.data) == CompleteSettings ==>
                State() == old(State()).(
                  characterA := ToProfile(content.data.charA.value),
                  characterB := ToProfile(content.data.charB.value),
                  worldview := content.data.worldview.value,
                  model := content.data.model.value,
                  selectedModelOption := SelectorFor(content.data.model.value),
                  error := "",
                  partialUploadData := None)
      ensures content.Parsed? && Classify(content.data) == PartialSettings ==>
                State() == old(State()).(partialUploadData := Some(content.data), error := "")
    {
      match content {
        case Unparsable =>
          error := UnreadableFileError;
        case Parsed(data) =>
          if HasConversation(data) && HasCompleteSettings(data) {
            uploadWithConversationData := Some(UploadedSession(data));
            return;
          }
          if HasCompleteSettings(data) {
            characterA := ToProfile(data.charA.value);
            characterB := ToProfile(data.charB.value);
            worldview := data.worldview.value;
            UpdateModelStates(data.model.value);
            error := "";
            partialUploadData := None;
          } else if HasAnyValidKey(data) {
            partialUploadData := Some(data);
            error := "";
          } else {
            error := InvalidFormatError;
          }
      }
    }

    /** Dismissing the partial-upload dialog. */
    method CancelPartialUpload()
      requires Valid()
      modifies this
      ensures Valid()
      ensures State() == old(State()).(partialUploadData := None)
    {
      partialUploadData := None;
    }

    /** "Keep existing fields": each uploaded character is spread over the current one,
        a present worldview or model replaces the current one, and the dialog closes. */
    method MergeUpload()
      requires Valid()
      modifies this
      ensures Valid()
      ensures old(partialUploadData).None? ==> State() == old(State())
      ensures old(partialUploadData).Some? ==>
                var d := old(partialUploadData).value;
                State() == old(State()).(
                  characterA := MergeProfile(old(characterA), d.charA),
                  characterB := MergeProfile(old(characterB), d.charB),
                  worldview := if d.worldview.Some? then d.worldview.value else old(worldview),
                  model := if d.model.Some? then d.model.value else old(model),
                  selectedModelOption := if d.model.Some? then SelectorFor(d.model.value)
                                         else old(selectedModelOption),
                  partialUploadData := None)
    {
      if partialUploadData.None? {
        return;
      }
      var data := partialUploadData.value;
      if data.charA.Some? {
        characterA := MergeProfile(characterA, data.charA);
      }
      if data.charB.Some? {
        characterB := MergeProfile(characterB, data.charB);
      }
      if data.worldview.Some? {
        worldview := data.worldview.value;
      }
      if data.model.Some? {
        UpdateModelStates(data.model.value);
      }
      partialUploadData := None;
    }

    /** "Clear existing fields": each character becomes the upload spread over a blank
        profile, a missing or empty worldview becomes empty, a missing or empty model
        becomes the default one, and the dialog closes. */
    method ClearAndApplyUpload()
      requires Valid()
      modifies this
      ensures Valid()
      ensures old(partialUploadData).None? ==> State() == old(State())
      ensures old(partialUploadData).Some? ==>
                var d := old(partialUploadData).value;
                State() == old(State()).(
                  characterA := ClearProfile(d.charA),
                  characterB := ClearProfile(d.charB),
                  worldview := OrElse(d.worldview, ""),
                  model := OrElse(d.model, DefaultModel),
                  selectedModelOption := SelectorFor(OrElse(d.model, DefaultModel)),
                  partialUploadData := None)
    {
      if partialUploadData.None? {
        return;
      }
      var data := partialUploadData.value;
      characterA := ClearProfile(data.charA);
      characterB := ClearProfile(data.charB);
      worldview := OrElse(data.worldview, "");
      UpdateModelStates(OrElse(data.model, DefaultModel));
      partialUploadData := None;
    }

    /** "Import settings and conversation": the held session is handed on unchanged, with
        its non-empty history, and the dialog closes. */
    method UploadConversation() returns (request: Option<StartRequest>)
      requires Valid()
      modifies this
      ensures Valid()
      ensures old(uploadWithConversationData).None? ==> request.None? && State() == old(State())
      ensures old(uploadWithConversationData).Some? ==>
                var s := old(uploadWithConversationData).value;
                && request == Some(StartRequest(s.charA, s.charB, s.worldview, s.model, Some(s.conversation)))
                && s.conversation != []
                && State() == old(State()).(uploadWithConversationData := None)
    {
      if uploadWithConversationData.None? {
        return None;
      }
      var s := uploadWithConversationData.value;
      request := Some(StartRequest(s.charA, s.charB, s.worldview, s.model, Some(s.conversation)));
      uploadWithConversationData := None;
    }

    /** "Import settings only": the held session's four settings replace the current
        ones, its history is dropped, and the dialog closes. */
    method UploadSettingsOnly()
      requires Valid()
      modifies this
      ensures Valid()
      ensures old(uploadWithConversationData).None? ==> State() == old(State())
      ensures old(uploadWithConversationData).Some? ==>
                var s := old(uploadWithConversationData).value;
                State() == old(State()).(
                  characterA := s.charA,
                  characterB := s.charB,
                  worldview := s.worldview,
                  model := s.model,
                  selectedModelOption := SelectorFor(s.model),
                  uploadWithConversationData := None)
    {
      if uploadWithConversationData.None? {
        return;
      }
      var s := uploadWithConversationData.value;
      characterA := s.charA;
      characterB := s.charB;
      worldview := s.worldview;
      UpdateModelStates(s.model);
      uploadWithConversationData := None;
    }

    /** Dismissing the history dialog. */
    method CancelConversationUpload()
      requires Valid()
      modifies this
      ensures Valid()
      ensures State() == old(State()).(uploadWithConversationData := None)
    {
      uploadWithConversationData := None;
    }
  }
}
