/**
 * The sub-themes of one theme (frontend/rev-front/src/SubThemesList.jsx): it loads them and offers
 * a modal form, with a title and a status, to create one. Handlers are split at their `await` as in
 * the topics list.
 */
module SubThemesList {
  import opened Wrappers
  import opened Text
  import opened Remote
  import opened Entities

  const MissingTheme := "ID темы не указан."
  const EmptyTitle := "Название подтемы не может быть пустым."
  const SubThemeCreated := "Подтема успешно создана!"
  const CreateFailedPrefix := "Ошибка создания подтемы: "

  /** The JSON body of the create request; `parent_id` is the theme prop as given. */
  datatype SubThemeRequest = SubThemeRequest(title: string, status: string, parentId: Option<int>)

  datatype Screen =
    | NoThemeScreen
    | LoadingScreen
    | ErrorScreen(error: string)
    | ListScreen(subThemes: seq<SubTheme>, refreshing: bool, modal: Option<FormView>)

  /**
   * The early returns in order: no theme, a first load still running, a load error; otherwise the
   * list and, when it is open, the create modal with its message and its button.
   */
  function Render(themeId: Option<int>, loading: bool, subThemes: seq<SubTheme>, error: Option<string>,
                  modalOpen: bool, createMessage: Notice, isCreating: bool): (s: Screen)
    ensures s == NoThemeScreen <==> !Given(themeId)
    ensures s == LoadingScreen <==> Given(themeId) && loading && subThemes == []
    ensures s.ErrorScreen? <==> Given(themeId) && !(loading && subThemes == []) && Truthy(error)
    ensures s.ErrorScreen? ==> Some(s.error) == error
    ensures s.ListScreen? ==>
              && s.subThemes == subThemes && s.refreshing == (loading && subThemes != [])
              && s.modal == (if modalOpen then Some(FormOf(createMessage, isCreating)) else None)
  {
    if !Given(themeId) then NoThemeScreen
    else if loading && |subThemes| == 0 then LoadingScreen
    else if Truthy(error) then ErrorScreen(error.value)
    else ListScreen(subThemes, loading && |subThemes| > 0,
                    if modalOpen then Some(FormOf(createMessage, isCreating)) else None)
  }

  class Component {
    var themeId: Option<int>
    var subThemes: seq<SubTheme>
    var loading: bool
    var error: Option<string>
    var isCreateModalOpen: bool
    var newSubThemeTitle: string     // bound to the title input
    var newSubThemeStatus: string    // bound to the status select
    var isCreating: bool
    var createMessage: Notice

    ghost predicate Valid()
      reads this
    {
      WellFormed(createMessage) && (loading ==> error == None)
    }

    /** What `fetchSubThemes` does before its `await`, given the request it returned. */
    ghost predicate LoadStarted(requested: Option<int>)
      reads this
    {
      && (requested.Some? <==> Given(themeId))
      && (Given(themeId) ==> requested == themeId && loading && error == None)
      && (!Given(themeId) ==> !loading && error == Some(MissingTheme))
    }

    constructor (themeId: Option<int>)
      ensures Valid()
      ensures this.themeId == themeId && subThemes == [] && loading && error == None
      ensures !isCreateModalOpen && newSubThemeTitle == "" && newSubThemeStatus == ActiveStatus
      ensures !isCreating && createMessage == NoNotice
    {
      this.themeId := themeId;
      subThemes := [];
      loading := true;
      error := None;
      isCreateModalOpen := false;
      newSubThemeTitle := "";
      newSubThemeStatus := ActiveStatus;
      isCreating := false;
      createMessage := NoNotice;
    }

    /** `fetchSubThemes` up to its `await`: without a theme it records the error and sends nothing. */
    method StartFetchSubThemes() returns (requested: Option<int>)
      requires Valid()
      modifies this`loading, this`error
      ensures Valid() && LoadStarted(requested)
    {
      if !Given(themeId) {
        error := Some(MissingTheme);
        loading := false;
        return None;
      }
      loading := true;
      error := None;
      requested := themeId;
    }

    /** `fetchSubThemes` after its `await`: success replaces the list, failure keeps it; loading ends. */
    method FinishFetchSubThemes(response: FetchOutcome<seq<SubTheme>>)
      requires Valid()
      modifies this`subThemes, this`loading, this`error
      ensures Valid() && !loading
      ensures response.Fetched? ==> subThemes == response.data && error == old(error)
      ensures response.HttpError? ==>
                subThemes == old(subThemes) && error == Some(LoadFailureMessage(response.status, response.body))
      ensures response.FetchThrew? ==> subThemes == old(subThemes) && error == Some(response.message)
    {
      match response {
        case Fetched(data) => subThemes := data;
        case HttpError(status, body) => error := Some(LoadFailureMessage(status, body));
        case FetchThrew(message) => error := Some(message);
      }
      loading := false;
    }

    /** The `useEffect` on `[themeId]`: a new id is stored and starts a load; the same id does nothing. */
    method ReceiveThemeId(id: Option<int>) returns (requested: Option<int>)
      requires Valid()
      modifies this`themeId, this`loading, this`error
      ensures Valid() && themeId == id
      ensures id != old(themeId) ==> LoadStarted(requested)
      ensures id == old(themeId) ==> requested == None && loading == old(loading) && error == old(error)
    {
      if id == themeId {
        return None;
      }
      themeId := id;
      requested := StartFetchSubThemes();
    }

    /** `handleCreateSubTheme` up to its `await`: a blank title only sets the error message. */
    method SubmitCreateSubTheme() returns (request: Option<SubThemeRequest>)
      requires Valid()
      modifies this`createMessage, this`isCreating
      ensures Valid()
      ensures request.None? <==> Blank(newSubThemeTitle)
      ensures Blank(newSubThemeTitle) ==> createMessage == ErrorNotice(EmptyTitle) && isCreating == old(isCreating)
      ensures !Blank(newSubThemeTitle) ==>
                && request == Some(SubThemeRequest(newSubThemeTitle, newSubThemeStatus, themeId))
                && isCreating && createMessage == NoNotice
    {
      if Blank(newSubThemeTitle) {
        createMessage := ErrorNotice(EmptyTitle);
        return None;
      }
      isCreating := true;
      createMessage := NoNotice;
      request := Some(SubThemeRequest(newSubThemeTitle, newSubThemeStatus, themeId));
    }

    /**
     * `handleCreateSubTheme` after its `await`. Success sets the success message, clears the title,
     * resets the status to the active one, starts a reload and schedules the auto-close timer;
     * otherwise the error message is set and the form kept.
     */
    method FinishCreateSubTheme(response: PostOutcome) returns (reload: Option<int>, closeScheduled: bool)
      requires Valid()
      modifies this`createMessage, this`isCreating, this`newSubThemeTitle, this`newSubThemeStatus,
               this`loading, this`error
      ensures Valid() && !isCreating
      ensures closeScheduled <==> response.Accepted?
      ensures response.Accepted? ==>
                && createMessage == SuccessNotice(SubThemeCreated)
                && newSubThemeTitle == "" && newSubThemeStatus == ActiveStatus
                && LoadStarted(reload)
      ensures !response.Accepted? ==>
                && createMessage == ErrorNotice(FailureText(response, CreateFailedPrefix, ConnectionFailed))
                && newSubThemeTitle == old(newSubThemeTitle) && newSubThemeStatus == old(newSubThemeStatus)
                && loading == old(loading) && error == old(error) && reload == None
    {
      if response.Accepted? {
        createMessage := SuccessNotice(SubThemeCreated);
        newSubThemeTitle := "";
        newSubThemeStatus := ActiveStatus;
        reload := StartFetchSubThemes();
        closeScheduled := true;
      } else {
        createMessage := ErrorNotice(FailureText(response, CreateFailedPrefix, ConnectionFailed));
        reload, closeScheduled := None, false;
      }
      isCreating := false;
    }

    /** The `setTimeout` callback after a successful create: closes the modal, clears the message. */
    method CloseTimerFired()
      requires Valid()
      modifies this`isCreateModalOpen, this`createMessage
      ensures Valid() && !isCreateModalOpen && createMessage == NoNotice
    {
      isCreateModalOpen := false;
      createMessage := NoNotice;
    }

    /** `openCreateModal`: opens the modal and clears the message. */
    method OpenCreateModal()
      requires Valid()
      modifies this`isCreateModalOpen, this`createMessage
      ensures Valid() && isCreateModalOpen && createMessage == NoNotice
    {
      isCreateModalOpen := true;
      createMessage := NoNotice;
    }

    /** `closeCreateModal`: closes the modal, clears the title, resets the status, clears the message. */
    method CloseCreateModal()
      requires Valid()
      modifies this`isCreateModalOpen, this`newSubThemeTitle, this`newSubThemeStatus, this`createMessage
      ensures Valid() && !isCreateModalOpen && newSubThemeTitle == "" && newSubThemeStatus == ActiveStatus
      ensures createMessage == NoNotice
    {
      isCreateModalOpen := false;
      newSubThemeTitle := "";
      newSubThemeStatus := ActiveStatus;
      createMessage := NoNotice;
    }

    /**
     * What the component renders. In a valid state a running load never shows the error page, and
     * an open modal shows exactly the message last set.
     */
    function Shown(): (s: Screen)
      reads this
      requires Valid()
      ensures loading ==> !s.ErrorScreen?
      ensures s.ListScreen? && s.modal.Some? ==> s.modal.value.notice == createMessage
    {
      Render(themeId, loading, subThemes, error, isCreateModalOpen, createMessage, isCreating)
    }
  }
}
