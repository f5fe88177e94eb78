/** The agent tab of the settings sheet: the list of the user's agents and
    the form that creates or edits one. */
module AgentTab {
  import opened Wrappers
  import opened Strings

  datatype Agent = Agent(
    id: string,
    name: string,
    avatar: Option<string>,
    desc: Option<string>,
    personaId: Option<string>,
    voiceId: Option<string>,
    defaultSceneId: Option<string>,
    isPublic: Option<bool>,
    status: Option<string>)

  datatype Persona = Persona(id: string, displayName: string, description: Option<string>, voiceId: Option<string>, avatar: Option<string>)

  /** The body of a save: `status` is sent by an update only. */
  datatype Payload = Payload(
    name: string,
    avatar: string,
    desc: string,
    personaId: string,
    voiceId: string,
    defaultSceneId: string,
    isPublic: bool,
    status: Option<string>)

  datatype Request = UpdateAgent(agentId: string, body: Payload) | CreateAgent(body: Payload)

  /** The values the form holds, as one record. */
  datatype FormFields = FormFields(
    isCreating: bool,
    editingAgentId: Option<string>,
    name: string,
    avatar: string,
    desc: string,
    personaId: string,
    voiceId: string,
    sceneId: string,
    isPublic: bool,
    status: string)

  const DefaultDescKey: string := "agent.customAgent"
  const DicebearPrefix: string := "https://api.dicebear.com/7.x/bottts/png?seed="

  /** `value || ""` for an optional text field. */
  function OrEmpty(s: Option<string>): (r: string)
    ensures s.Some? ==> r == s.value
    ensures s.None? ==> r == ""
  {
    s.GetOr("")
  }

  /** The avatar a new agent gets: the chosen one, or a generated robot
      picture seeded with the agent's name. */
  function CreateAvatar(avatar: string, name: string): (url: string)
    ensures avatar != "" ==> url == avatar
    ensures avatar == "" ==> url == DicebearPrefix + name && name <= url[|DicebearPrefix|..]
  {
    if avatar != "" then avatar else DicebearPrefix + name
  }

  /** The guard of `handleSaveAgent`: a name that is not blank, a persona
      and a voice. */
  function CanSave(name: string, personaId: string, voiceId: string): (ok: bool)
    ensures ok <==> Trim(name) != "" && personaId != "" && voiceId != ""
    ensures ok ==> !SaveButtonDisabled(false, name, personaId)
  {
    Trim(name) != "" && personaId != "" && voiceId != ""
  }

  /** The save button's own rule: it does not look at the voice. */
  function SaveButtonDisabled(isSubmitting: bool, name: string, personaId: string): (disabled: bool)
    ensures isSubmitting ==> disabled
    ensures !disabled <==> !isSubmitting && Trim(name) != "" && personaId != ""
  {
    isSubmitting || Trim(name) == "" || personaId == ""
  }

  /** When not submitting, a save goes through exactly when the button is
      enabled and a voice is chosen; so an enabled button with no voice
      does nothing. */
  lemma SaveNeedsMoreThanButton(name: string, personaId: string, voiceId: string)
    ensures CanSave(name, personaId, voiceId) <==> !SaveButtonDisabled(false, name, personaId) && voiceId != ""
    ensures !SaveButtonDisabled(false, name, personaId) && voiceId == "" ==> !CanSave(name, personaId, voiceId)
  {
  }

  class Form {
    var isCreating: bool
    var isManaging: bool
    var editingAgentId: Option<string>
    var newName: string
    var newAvatar: string
    var newDesc: string
    var selectedPersonaId: string
    var selectedVoiceId: string
    var selectedSceneId: string
    var isPublic: bool
    var agentStatus: string
    var isSubmitting: bool
    /** The active agent, held by the parent screen. */
    var activeAgentId: Option<string>
    /** The `last_agent_id` entry of the device storage. */
    var lastAgentId: Option<string>

    /** `!!editingAgentId`. */
    predicate IsEditMode()
      reads this
    {
      editingAgentId.Some? && editingAgentId.value != ""
    }

    /** The form's fields together, with the create and edit flags. */
    function Fields(): FormFields
      reads this
    {
      FormFields(isCreating, editingAgentId, newName, newAvatar, newDesc, selectedPersonaId,
        selectedVoiceId, selectedSceneId, isPublic, agentStatus)
    }

    /** Every form field at its initial value, out of create mode. */
    predicate IsReset()
      reads this
    {
      && newName == "" && newAvatar == "" && newDesc == ""
      && selectedPersonaId == "" && selectedVoiceId == "" && selectedSceneId == ""
      && isPublic && agentStatus == "active"
      && !isCreating && editingAgentId.None?
    }

    constructor ()
      ensures IsReset() && !isManaging && !isSubmitting
      ensures activeAgentId.None? && lastAgentId.None?
    {
      isCreating := false;
      isManaging := false;
      editingAgentId := None;
      newName := "";
      newAvatar := "";
      newDesc := "";
      selectedPersonaId := "";
      selectedVoiceId := "";
      selectedSceneId := "";
      isPublic := true;
      agentStatus := "active";
      isSubmitting := false;
      activeAgentId := None;
      lastAgentId := None;
    }

    /** `resetForm`: every field back to its default, out of create mode. */
    method ResetForm()
      modifies this
      ensures IsReset()
      ensures isManaging == old(isManaging) && isSubmitting == old(isSubmitting)
      ensures activeAgentId == old(activeAgentId) && lastAgentId == old(lastAgentId)
    {
      newName := "";
      newAvatar := "";
      newDesc := "";
      selectedPersonaId := "";
      selectedVoiceId := "";
      selectedSceneId := "";
      isPublic := true;
      agentStatus := "active";
      isCreating := false;
      editingAgentId := None;
    }

    /** `handleEditStart`: the form takes the agent's values; a missing
        visibility means public and a missing status means active. */
    method EditStart(agent: Agent)
      modifies this
      ensures editingAgentId == Some(agent.id) && isCreating
      ensures newName == agent.name && newAvatar == OrEmpty(agent.avatar) && newDesc == OrEmpty(agent.desc)
      ensures selectedPersonaId == OrEmpty(agent.personaId) && selectedVoiceId == OrEmpty(agent.voiceId)
      ensures selectedSceneId == OrEmpty(agent.defaultSceneId)
      ensures isPublic == agent.isPublic.GetOr(true)
      ensures agentStatus == if agent.status.Some? && agent.status.value != "" then agent.status.value else "active"
      ensures isManaging == old(isManaging) && isSubmitting == old(isSubmitting)
      ensures activeAgentId == old(activeAgentId) && lastAgentId == old(lastAgentId)
    {
      editingAgentId := Some(agent.id);
      newName := agent.name;
      newAvatar := OrEmpty(agent.avatar);
      newDesc := OrEmpty(agent.desc);
      selectedPersonaId := OrEmpty(agent.personaId);
      selectedVoiceId := OrEmpty(agent.voiceId);
      selectedSceneId := OrEmpty(agent.defaultSceneId);
      isPublic := agent.isPublic.GetOr(true);
      agentStatus := if agent.status.Some? && agent.status.value != "" then agent.status.value else "active";
      isCreating := true;
    }

    /** Choosing a persona overwrites the name, description, voice and avatar. */
    method SelectPersona(persona: Persona)
      modifies this`selectedPersonaId, this`newName, this`newDesc, this`selectedVoiceId, this`newAvatar
      ensures selectedPersonaId == persona.id && newName == persona.displayName
      ensures newDesc == OrEmpty(persona.description) && selectedVoiceId == OrEmpty(persona.voiceId)
      ensures newAvatar == OrEmpty(persona.avatar)
    {
      selectedPersonaId := persona.id;
      newName := persona.displayName;
      newDesc := OrEmpty(persona.description);
      selectedVoiceId := OrEmpty(persona.voiceId);
      newAvatar := OrEmpty(persona.avatar);
    }

    /** The prefill effect: when creating (not editing) with no persona
        chosen, the first persona is applied; otherwise nothing changes. */
    method PrefillEffect(personas: seq<Persona>)
      modifies this`selectedPersonaId, this`newName, this`newDesc, this`selectedVoiceId, this`newAvatar
      ensures old(isCreating && !IsEditMode() && |personas| > 0 && selectedPersonaId == "") ==>
        selectedPersonaId == personas[0].id && newName == personas[0].displayName
        && newDesc == OrEmpty(personas[0].description) && selectedVoiceId == OrEmpty(personas[0].voiceId)
        && newAvatar == OrEmpty(personas[0].avatar)
      ensures !old(isCreating && !IsEditMode() && |personas| > 0 && selectedPersonaId == "") ==> unchanged(this)
    {
      if isCreating && !IsEditMode() && |personas| > 0 && selectedPersonaId == "" {
        SelectPersona(personas[0]);
      }
    }

    method StartCreate()
      modifies this`isCreating
      ensures isCreating
    {
      isCreating := true;
    }

    method ToggleManaging()
      modifies this`isManaging
      ensures isManaging == !old(isManaging)
    {
      isManaging := !isManaging;
    }

    /** Picking an agent from the list makes it active and remembers it. The
        list entries are disabled while managing. */
    method ChooseAgent(agent: Agent)
      requires !isManaging
      modifies this`activeAgentId, this`lastAgentId
      ensures activeAgentId == Some(agent.id) && lastAgentId == Some(agent.id)
    {
      activeAgentId := Some(agent.id);
      lastAgentId := Some(agent.id);
    }

    /** The first half of `handleSaveAgent`: nothing happens unless the guard
        holds; then an update (with the status) in edit mode, or a create
        with the default avatar and description filled in. */
    method SaveBegin() returns (request: Option<Request>)
      modifies this`isSubmitting
      ensures !CanSave(newName, selectedPersonaId, selectedVoiceId) ==> request.None? && unchanged(this)
      ensures CanSave(newName, selectedPersonaId, selectedVoiceId) ==> request.Some? && isSubmitting
      ensures CanSave(newName, selectedPersonaId, selectedVoiceId) && IsEditMode() ==>
        request == Some(UpdateAgent(editingAgentId.value,
          Payload(newName, newAvatar, newDesc, selectedPersonaId, selectedVoiceId, selectedSceneId, isPublic, Some(agentStatus))))
      ensures CanSave(newName, selectedPersonaId, selectedVoiceId) && !IsEditMode() ==>
        request == Some(CreateAgent(
          Payload(newName, CreateAvatar(newAvatar, newName), if newDesc != "" then newDesc else DefaultDescKey,
            selectedPersonaId, selectedVoiceId, selectedSceneId, isPublic, None)))
    {
      if !CanSave(newName, selectedPersonaId, selectedVoiceId) {
        return None;
      }
      isSubmitting := true;
      if IsEditMode() {
        request := Some(UpdateAgent(editingAgentId.value,
          Payload(newName, newAvatar, newDesc, selectedPersonaId, selectedVoiceId, selectedSceneId, isPublic, Some(agentStatus))));
      } else {
        request := Some(CreateAgent(
          Payload(newName, CreateAvatar(newAvatar, newName), if newDesc != "" then newDesc else DefaultDescKey,
            selectedPersonaId, selectedVoiceId, selectedSceneId, isPublic, None)));
      }
    }

    /** The second half: success resets the form; either way submitting ends. */
    method SaveSettle(succeeded: bool)
      modifies this
      ensures !isSubmitting
      ensures succeeded ==> IsReset()
      ensures !succeeded ==> Fields() == old(Fields())
      ensures isManaging == old(isManaging)
      ensures activeAgentId == old(activeAgentId) && lastAgentId == old(lastAgentId)
    {
      if succeeded {
        ResetForm();
      }
      isSubmitting := false;
    }

    /** `handleDeleteAgent`: the agent given, or else the one being edited,
        is deleted once confirmed. A deleted active agent is cleared along
        with the stored `last_agent_id`; a deleted agent that was being
        edited resets the form. */
    method DeleteAgent(agentId: Option<string>, confirmed: bool, succeeded: bool) returns (deleted: Option<string>)
      modifies this
      ensures var target := if agentId.Some? && agentId.value != "" then agentId else old(editingAgentId);
        deleted == (if target.Some? && target.value != "" && confirmed then target else None)
      ensures deleted.None? ==> unchanged(this)
      ensures deleted.Some? ==> !isSubmitting
      ensures deleted.Some? && succeeded && old(activeAgentId) == deleted ==> activeAgentId.None? && lastAgentId.None?
      ensures deleted.Some? && !(succeeded && old(activeAgentId) == deleted) ==>
        activeAgentId == old(activeAgentId) && lastAgentId == old(lastAgentId)
      ensures deleted.Some? && succeeded && old(editingAgentId) == deleted ==> IsReset()
      ensures deleted.Some? && !(succeeded && old(editingAgentId) == deleted) ==> Fields() == old(Fields())
      ensures isManaging == old(isManaging)
    {
      var target := if agentId.Some? && agentId.value != "" then agentId else editingAgentId;
      if target.None? || target.value == "" || !confirmed {
        return None;
      }
      deleted := target;
      isSubmitting := true;
      if succeeded {
        if activeAgentId == target {
          activeAgentId := None;
          lastAgentId := None;
        }
        if editingAgentId == target {
          ResetForm();
        }
      }
      isSubmitting := false;
    }
  }
}
