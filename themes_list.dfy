/**
 * The list of forum themes with an inline form to create one (frontend/rev-front/src/ThemesList.jsx).
 * Unlike the other lists it needs no parent id, and its form reports through a separate error text
 * and success flag rather than one message.
 */
module ThemesList {
  import opened Wrappers
  import opened Text
  import opened Remote
  import opened Entities

  const EmptyTitle := "Название темы не может быть пустым."
  const CreateFailedPrefix := "Ошибка создания темы: "

  /** The JSON body of the create request. */
  datatype ThemeRequest = ThemeRequest(title: string, status: string)

  datatype Screen =
    | LoadingScreen
    | ErrorScreen(error: string)
    | ListScreen(themes: seq<Theme>, refreshing: bool, successBanner: bool, errorBanner: Option<string>,
                 creating: bool)

  /**
   * A first load still running, then a load error; otherwise the form (with its success and error
   * lines and a disabled button while creating) above the list.
   */
  function Render(loading: bool, themes: seq<Theme>, error: Option<string>, createSuccess: bool,
                  createError: Option<string>, isCreating: bool): (s: Screen)
    ensures s == LoadingScreen <==> loading && themes == []
    ensures s.ErrorScreen? <==> !(loading && themes == []) && Truthy(error)
    ensures s.ErrorScreen? ==> Some(s.error) == error
    ensures s.ListScreen? ==>
              && s.themes == themes && s.refreshing == (loading && themes != [])
              && s.successBanner == createSuccess && s.creating == isCreating
              && (s.errorBanner.Some? <==> Truthy(createError))
              && (s.errorBanner.Some? ==> s.errorBanner == createError)
  {
    if loading && |themes| == 0 then LoadingScreen
    else if Truthy(error) then ErrorScreen(error.value)
    else ListScreen(themes, loading && |themes| > 0, createSuccess,
                    if Truthy(createError) then createError else None, isCreating)
  }

  class Component {
    var themes: seq<Theme>
    var loading: bool
    var error: Option<string>
    var newThemeTitle: string     // bound to the title input
    var newThemeStatus: string    // bound to the status select
    var isCreating: bool
    var createError: Option<string>
    var createSuccess: bool

    /** A running load has no error, and a form error, once set, has a text. */
    ghost predicate Valid()
      reads this
    {
      (loading ==> error == None) && (createError.Some? ==> createError.value != "")
    }

    constructor ()
      ensures Valid()
      ensures themes == [] && loading && error == None
      ensures newThemeTitle == "" && newThemeStatus == ActiveStatus
      ensures !isCreating && createError == None && !createSuccess
    {
      themes := [];
      loading := true;
      error := None;
      newThemeTitle := "";
      newThemeStatus := ActiveStatus;
      isCreating := false;
      createError := None;
      createSuccess := false;
    }

    /** `fetchThemes` up to its `await`, run on mount and after a create: it always sends the request. */
    method StartFetchThemes()
      requires Valid()
      modifies this`loading, this`error
      ensures Valid() && loading && error == None
    {
      loading := true;
      error := None;
    }

    /** `fetchThemes` after its `await`: success replaces the list, failure keeps it; loading ends. */
    method FinishFetchThemes(response: FetchOutcome<seq<Theme>>)
      requires Valid()
      modifies this`themes, this`loading, this`error
      ensures Valid() && !loading
      ensures response.Fetched? ==> themes == response.data && error == old(error)
      ensures response.HttpError? ==>
                themes == old(themes) && error == Some(LoadFailureMessage(response.status, response.body))
      ensures response.FetchThrew? ==> themes == old(themes) && error == Some(response.message)
    {
      match response {
        case Fetched(data) => themes := data;
        case HttpError(status, body) => error := Some(LoadFailureMessage(status, body));
        case FetchThrew(message) => error := Some(message);
      }
      loading := false;
    }

    /**
     * `handleCreateTheme` up to its `await`: a blank title only sets the form error (an earlier
     * success line stays); otherwise both lines are cleared, the form is marked as creating and the
     * request is sent.
     */
    method SubmitCreateTheme() returns (request: Option<ThemeRequest>)
      requires Valid()
      modifies this`createError, this`createSuccess, this`isCreating
      ensures Valid()
      ensures request.None? <==> Blank(newThemeTitle)
      ensures Blank(newThemeTitle) ==>
                && createError == Some(EmptyTitle)
                && createSuccess == old(createSuccess) && isCreating == old(isCreating)
      ensures !Blank(newThemeTitle) ==>
                && request == Some(ThemeRequest(newThemeTitle, newThemeStatus))
                && isCreating && createError == None && !createSuccess
    {
      if Blank(newThemeTitle) {
        createError := Some(EmptyTitle);
        return None;
      }
      isCreating := true;
      createError := None;
      createSuccess := false;
      request := Some(ThemeRequest(newThemeTitle, newThemeStatus));
    }

    /**
     * `handleCreateTheme` after its `await`. Success sets the success flag, clears the title, resets
     * the status and starts a reload; otherwise the form error is set and the form kept.
     */
    method FinishCreateTheme(response: PostOutcome) returns (reloaded: bool)
      requires Valid()
      modifies this`createError, this`createSuccess, this`isCreating, this`newThemeTitle, this`newThemeStatus,
               this`loading, this`error
      ensures Valid() && !isCreating
      ensures reloaded <==> response.Accepted?
      ensures response.Accepted? ==>
                && createSuccess && createError == old(createError)
                && newThemeTitle == "" && newThemeStatus == ActiveStatus
                && loading && error == None
      ensures !response.Accepted? ==>
                && createError == Some(FailureText(response, CreateFailedPrefix, ConnectionFailed))
                && createSuccess == old(createSuccess)
                && newThemeTitle == old(newThemeTitle) && newThemeStatus == old(newThemeStatus)
                && loading == old(loading) && error == old(error)
    {
      if response.Accepted? {
        createSuccess := true;
        newThemeTitle := "";
        newThemeStatus := ActiveStatus;
        StartFetchThemes();
        reloaded := true;
      } else {
        createError := Some(FailureText(response, CreateFailedPrefix, ConnectionFailed));
        reloaded := false;
      }
      isCreating := false;
    }

    /**
     * What the component renders. In a valid state a running load never shows the error page, and
     * the form shows its error line exactly when an error was set.
     */
    function Shown(): (s: Screen)
      reads this
      requires Valid()
      ensures loading ==> !s.ErrorScreen?
      ensures s.ListScreen? ==> s.errorBanner == createError
    {
      Render(loading, themes, error, createSuccess, createError, isCreating)
    }
  }
}
