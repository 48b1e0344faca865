/**
 * The list of topics of one sub-theme (frontend/src/TopicsList.jsx): it loads the topics, offers a
 * modal form to create one, and switches to a topic's own view when one is selected.
 *
 * Each `async` handler is split at its `await`: the `Start`/`Submit` method does what runs before
 * the request and returns the request it sends (`None` when it sends nothing); the `Finish` method,
 * given the request's outcome, does what runs after it, `finally` included.
 */
module TopicsList {
  import opened Wrappers
  import opened Text
  import opened Remote
  import opened Entities

  const MissingSubTheme := "ID подтемы не указан."
  const EmptyTitle := "Заголовок топика не может быть пустым."
  const TopicCreated := "Топик успешно создан!"
  const CreateFailedPrefix := "Ошибка создания топика: "

  /** The JSON body of the create request; the sub-theme id is `parseInt`'s result, absent as NaN. */
  datatype TopicRequest = TopicRequest(title: string, content: string, subThemeId: Option<int>)

  datatype Screen =
    | TopicViewScreen(topicId: int, topicTitle: string)
    | NoSubThemeScreen
    | LoadingScreen
    | ErrorScreen(error: string)
    | ListScreen(topics: seq<Topic>, refreshing: bool, modal: Option<FormView>)

  /**
   * The component's early returns, in order: a selected topic, a missing sub-theme, a first load
   * still running, a load error; otherwise the list (with a "refreshing" line while reloading) and,
   * when it is open, the create modal with its message and its button.
   */
  function Render(selected: Option<Topic>, subThemeId: Option<int>, loading: bool, topics: seq<Topic>,
                  error: Option<string>, modalOpen: bool, createMessage: Notice, isCreating: bool): (s: Screen)
    ensures selected.Some? <==> s.TopicViewScreen?
    ensures selected.Some? ==> s == TopicViewScreen(selected.value.id, selected.value.title)
    ensures s == NoSubThemeScreen <==> selected.None? && !Given(subThemeId)
    ensures s == LoadingScreen <==> selected.None? && Given(subThemeId) && loading && topics == []
    ensures s.ErrorScreen? <==> selected.None? && Given(subThemeId) && !(loading && topics == []) && Truthy(error)
    ensures s.ErrorScreen? ==> Some(s.error) == error
    ensures s.ListScreen? ==>
              && s.topics == topics && s.refreshing == (loading && topics != [])
              && s.modal == (if modalOpen then Some(FormOf(createMessage, isCreating)) else None)
  {
    if selected.Some? then TopicViewScreen(selected.value.id, selected.value.title)
    else if !Given(subThemeId) then NoSubThemeScreen
    else if loading && |topics| == 0 then LoadingScreen
    else if Truthy(error) then ErrorScreen(error.value)
    else ListScreen(topics, loading && |topics| > 0, if modalOpen then Some(FormOf(createMessage, isCreating)) else None)
  }

  class Component {
    var subThemeId: Option<int>          // the prop the list belongs to
    var topics: seq<Topic>
    var loading: bool
    var error: Option<string>
    var isCreateModalOpen: bool
    var newTopicTitle: string            // bound to the title input
    var newTopicContent: string          // bound to the content textarea
    var isCreating: bool
    var createMessage: Notice
    var selectedTopic: Option<Topic>

    /** The modal's message always has a text unless cleared; a running load has no error. */
    ghost predicate Valid()
      reads this
    {
      WellFormed(createMessage) && (loading ==> error == None)
    }

    /** What `fetchTopics` does before its `await`, given the request it returned. */
    ghost predicate LoadStarted(requested: Option<int>)
      reads this
    {
      && (requested.Some? <==> Given(subThemeId))
      && (Given(subThemeId) ==> requested == subThemeId && loading && error == None)
      && (!Given(subThemeId) ==> !loading && error == Some(MissingSubTheme))
    }

    /** The initial `useState` values. */
    constructor (subThemeId: Option<int>)
      ensures Valid()
      ensures this.subThemeId == subThemeId && topics == [] && loading && error == None
      ensures !isCreateModalOpen && newTopicTitle == "" && newTopicContent == ""
      ensures !isCreating && createMessage == NoNotice && selectedTopic == None
    {
      this.subThemeId := subThemeId;
      topics := [];
      loading := true;
      error := None;
      isCreateModalOpen := false;
      newTopicTitle := "";
      newTopicContent := "";
      isCreating := false;
      createMessage := NoNotice;
      selectedTopic := None;
    }

    /**
     * `fetchTopics` up to its `await`: without a sub-theme it records the error and stops, sending
     * nothing; otherwise it marks the list as loading and requests the sub-theme's topics.
     */
    method StartFetchTopics() returns (requested: Option<int>)
      requires Valid()
      modifies this`loading, this`error
      ensures Valid() && LoadStarted(requested)
    {
      if !Given(subThemeId) {
        error := Some(MissingSubTheme);
        loading := false;
        return None;
      }
      loading := true;
      error := None;
      requested := subThemeId;
    }

    /** `fetchTopics` after its `await`: success replaces the list, failure keeps it; loading ends. */
    method FinishFetchTopics(response: FetchOutcome<seq<Topic>>)
      requires Valid()
      modifies this`topics, this`loading, this`error
      ensures Valid() && !loading
      ensures response.Fetched? ==> topics == response.data && error == old(error)
      ensures response.HttpError? ==>
                topics == old(topics) && error == Some(LoadFailureMessage(response.status, response.body))
      ensures response.FetchThrew? ==> topics == old(topics) && error == Some(response.message)
    {
      match response {
        case Fetched(data) => topics := data;
        case HttpError(status, body) => error := Some(LoadFailureMessage(status, body));
        case FetchThrew(message) => error := Some(message);
      }
      loading := false;
    }

    /** The `useEffect` on `[subThemeId]`: a new id is stored and starts a load; the same id does nothing. */
    method ReceiveSubThemeId(id: Option<int>) returns (requested: Option<int>)
      requires Valid()
      modifies this`subThemeId, this`loading, this`error
      ensures Valid() && subThemeId == id
      ensures id != old(subThemeId) ==> LoadStarted(requested)
      ensures id == old(subThemeId) ==> requested == None && loading == old(loading) && error == old(error)
    {
      if id == subThemeId {
        return None;
      }
      subThemeId := id;
      requested := StartFetchTopics();
    }

    /**
     * `handleCreateTopic` up to its `await`: a title that is blank after trimming only sets the error
     * message; otherwise the form is marked as creating, the message is cleared and the request sent.
     */
    method SubmitCreateTopic() returns (request: Option<TopicRequest>)
      requires Valid()
      modifies this`createMessage, this`isCreating
      ensures Valid()
      ensures request.None? <==> Blank(newTopicTitle)
      ensures Blank(newTopicTitle) ==> createMessage == ErrorNotice(EmptyTitle) && isCreating == old(isCreating)
      ensures !Blank(newTopicTitle) ==>
                && request == Some(TopicRequest(newTopicTitle, newTopicContent, subThemeId))
                && isCreating && createMessage == NoNotice
    {
      if Blank(newTopicTitle) {
        createMessage := ErrorNotice(EmptyTitle);
        return None;
      }
      isCreating := true;
      createMessage := NoNotice;
      request := Some(TopicRequest(newTopicTitle, newTopicContent, subThemeId));
    }

    /**
     * `handleCreateTopic` after its `await`. Success sets the success message, clears the form,
     * starts a reload (returned in `reload`) and schedules the auto-close timer; a rejection or a
     * thrown request sets the error message and keeps the form. `isCreating` ends false.
     */
    method FinishCreateTopic(response: PostOutcome) returns (reload: Option<int>, closeScheduled: bool)
      requires Valid()
      modifies this`createMessage, this`isCreating, this`newTopicTitle, this`newTopicContent, this`loading, this`error
      ensures Valid() && !isCreating
      ensures closeScheduled <==> response.Accepted?
      ensures response.Accepted? ==>
                && createMessage == SuccessNotice(TopicCreated)
                && newTopicTitle == "" && newTopicContent == ""
                && LoadStarted(reload)
      ensures !response.Accepted? ==>
                && createMessage == ErrorNotice(FailureText(response, CreateFailedPrefix, ConnectionFailed))
                && newTopicTitle == old(newTopicTitle) && newTopicContent == old(newTopicContent)
                && loading == old(loading) && error == old(error) && reload == None
    {
      if response.Accepted? {
        createMessage := SuccessNotice(TopicCreated);
        newTopicTitle := "";
        newTopicContent := "";
        reload := StartFetchTopics();
        closeScheduled := true;
      } else {
        createMessage := ErrorNotice(FailureText(response, CreateFailedPrefix, ConnectionFailed));
        reload, closeScheduled := None, false;
      }
      isCreating := false;
    }

    /** The `setTimeout` callback after a successful create: closes the modal, clears the message. */
    method CloseTimerFired()
      requires Valid()
      modifies this`isCreateModalOpen, this`createMessage
      ensures Valid() && !isCreateModalOpen && createMessage == NoNotice
    {
      isCreateModalOpen := false;
      createMessage := NoNotice;
    }

    /** `openCreateModal`: opens the modal and clears the message; the form keeps what was typed. */
    method OpenCreateModal()
      requires Valid()
      modifies this`isCreateModalOpen, this`createMessage
      ensures Valid() && isCreateModalOpen && createMessage == NoNotice
    {
      isCreateModalOpen := true;
      createMessage := NoNotice;
    }

    /** `closeCreateModal`: closes the modal, clears title, content and message. */
    method CloseCreateModal()
      requires Valid()
      modifies this`isCreateModalOpen, this`newTopicTitle, this`newTopicContent, this`createMessage
      ensures Valid() && !isCreateModalOpen && newTopicTitle == "" && newTopicContent == "" && createMessage == NoNotice
    {
      isCreateModalOpen := false;
      newTopicTitle := "";
      newTopicContent := "";
      createMessage := NoNotice;
    }

    /** `handleViewTopic`: the topic's own view replaces the list, whatever else the state is. */
    method ViewTopic(topic: Topic)
      requires Valid()
      modifies this`selectedTopic
      ensures Valid() && selectedTopic == Some(topic)
      ensures Shown() == TopicViewScreen(topic.id, topic.title)
    {
      selectedTopic := Some(topic);
    }

    /** `handleBackToTopics`: the selection is cleared and the list's own branches apply again. */
    method BackToTopics()
      requires Valid()
      modifies this`selectedTopic
      ensures Valid() && selectedTopic == None
      ensures !Shown().TopicViewScreen?
    {
      selectedTopic := None;
    }

    /**
     * What the component renders. In a valid state a running load never shows the error page, and
     * an open modal shows exactly the message last set.
     */
    function Shown(): (s: Screen)
      reads this
      requires Valid()
      ensures loading ==> !s.ErrorScreen?
      ensures s.ListScreen? && s.modal.Some? ==> s.modal.value.notice == createMessage
    {
      Render(selectedTopic, subThemeId, loading, topics, error, isCreateModalOpen, createMessage, isCreating)
    }
  }
}
