/**
 * One topic and its replies (frontend/src/TopicView.jsx): it loads the topic's posts, numbers them
 * from 1 in the order the server sent them, and offers a form to post a reply. Handlers are split
 * at their `await` as in the lists.
 */
module TopicView {
  import opened Wrappers
  import opened Text
  import opened Remote
  import opened Entities

  const MissingTopic := "ID топика не указан."
  const EmptyPost := "Сообщение не может быть пустым."
  const PostSent := "Сообщение отправлено!"
  const SendFailedPrefix := "Ошибка отправки сообщения: "

  /** The JSON body of the send request; `topic_id` is `parseInt(topicId, 10)`, absent as NaN. */
  datatype PostRequest = PostRequest(content: string, topicId: Option<int>)

  /** A rendered reply: its author, its `#n` number and its text. */
  datatype Entry = Entry(number: nat, authorId: int, content: string, createdAt: string)

  /** The replies as rendered, numbered consecutively from `first`. */
  function Numbered(posts: seq<Post>, first: nat): (r: seq<Entry>)
    ensures |r| == |posts|
    ensures forall i :: 0 <= i < |r| ==>
              r[i] == Entry(first + i, posts[i].authorId, posts[i].content, posts[i].createdAt)
  {
    if posts == [] then []
    else [Entry(first, posts[0].authorId, posts[0].content, posts[0].createdAt)] + Numbered(posts[1..], first + 1)
  }

  datatype Screen =
    | NoTopicScreen
    | LoadingScreen(topicTitle: string)
    | ErrorScreen(error: string)
    | ThreadScreen(topicTitle: string, description: Option<string>, entries: seq<Entry>, refreshing: bool,
                   form: FormView)

  /**
   * The early returns in order: no topic, a first load still running, a load error; otherwise the
   * thread: title, the description when there is one, the numbered replies, and the reply form with
   * its message when that has a text.
   */
  function Render(topicId: Option<int>, topicTitle: string, topicContent: string, loading: bool,
                  posts: seq<Post>, error: Option<string>, sendMessage: Notice, isSending: bool): (s: Screen)
    ensures s == NoTopicScreen <==> !Given(topicId)
    ensures s.LoadingScreen? <==> Given(topicId) && loading && posts == []
    ensures s.ErrorScreen? <==> Given(topicId) && !(loading && posts == []) && Truthy(error)
    ensures s.ErrorScreen? ==> Some(s.error) == error
    ensures s.ThreadScreen? ==>
              && s.topicTitle == topicTitle
              && (s.description.Some? <==> topicContent != "")
              && (s.description.Some? ==> s.description.value == topicContent)
              && s.entries == Numbered(posts, 1)
              && s.refreshing == (loading && posts != [])
              && s.form == FormOf(sendMessage, isSending)
  {
    if !Given(topicId) then NoTopicScreen
    else if loading && |posts| == 0 then LoadingScreen(topicTitle)
    else if Truthy(error) then ErrorScreen(error.value)
    else ThreadScreen(topicTitle, if topicContent != "" then Some(topicContent) else None, Numbered(posts, 1),
                      loading && |posts| > 0, FormOf(sendMessage, isSending))
  }

  class Component {
    var topicId: Option<int>
    var topicTitle: string
    var topicContent: string
    var posts: seq<Post>
    var loading: bool
    var error: Option<string>
    var newPostContent: string    // bound to the reply textarea
    var isSending: bool
    var sendMessage: Notice

    ghost predicate Valid()
      reads this
    {
      WellFormed(sendMessage) && (loading ==> error == None)
    }

    /** What `fetchPosts` does before its `await`, given the request it returned. */
    ghost predicate LoadStarted(requested: Option<int>)
      reads this
    {
      && (requested.Some? <==> Given(topicId))
      && (Given(topicId) ==> requested == topicId && loading && error == None)
      && (!Given(topicId) ==> !loading && error == Some(MissingTopic))
    }

    constructor (topicId: Option<int>, topicTitle: string, topicContent: string)
      ensures Valid()
      ensures this.topicId == topicId && this.topicTitle == topicTitle && this.topicContent == topicContent
      ensures posts == [] && loading && error == None
      ensures newPostContent == "" && !isSending && sendMessage == NoNotice
    {
      this.topicId := topicId;
      this.topicTitle := topicTitle;
      this.topicContent := topicContent;
      posts := [];
      loading := true;
      error := None;
      newPostContent := "";
      isSending := false;
      sendMessage := NoNotice;
    }

    /** `fetchPosts` up to its `await`: without a topic it records the error and sends nothing. */
    method StartFetchPosts() returns (requested: Option<int>)
      requires Valid()
      modifies this`loading, this`error
      ensures Valid() && LoadStarted(requested)
    {
      if !Given(topicId) {
        error := Some(MissingTopic);
        loading := false;
        return None;
      }
      loading := true;
      error := None;
      requested := topicId;
    }

    /** `fetchPosts` after its `await`: success replaces the replies, failure keeps them; loading ends. */
    method FinishFetchPosts(response: FetchOutcome<seq<Post>>)
      requires Valid()
      modifies this`posts, this`loading, this`error
      ensures Valid() && !loading
      ensures response.Fetched? ==> posts == response.data && error == old(error)
      ensures response.HttpError? ==>
                posts == old(posts) && error == Some(LoadFailureMessage(response.status, response.body))
      ensures response.FetchThrew? ==> posts == old(posts) && error == Some(response.message)
    {
      match response {
        case Fetched(data) => posts := data;
        case HttpError(status, body) => error := Some(LoadFailureMessage(status, body));
        case FetchThrew(message) => error := Some(message);
      }
      loading := false;
    }

    /** The `useEffect` on `[topicId]`: a new id is stored and starts a load; the same id does nothing. */
    method ReceiveTopicId(id: Option<int>) returns (requested: Option<int>)
      requires Valid()
      modifies this`topicId, this`loading, this`error
      ensures Valid() && topicId == id
      ensures id != old(topicId) ==> LoadStarted(requested)
      ensures id == old(topicId) ==> requested == None && loading == old(loading) && error == old(error)
    {
      if id == topicId {
        return None;
      }
      topicId := id;
      requested := StartFetchPosts();
    }

    /** `handleSendPost` up to its `await`: a reply blank after trimming only sets the error message. */
    method SubmitPost() returns (request: Option<PostRequest>)
      requires Valid()
      modifies this`sendMessage, this`isSending
      ensures Valid()
      ensures request.None? <==> Blank(newPostContent)
      ensures Blank(newPostContent) ==> sendMessage == ErrorNotice(EmptyPost) && isSending == old(isSending)
      ensures !Blank(newPostContent) ==>
                request == Some(PostRequest(newPostContent, topicId)) && isSending && sendMessage == NoNotice
    {
      if Blank(newPostContent) {
        sendMessage := ErrorNotice(EmptyPost);
        return None;
      }
      isSending := true;
      sendMessage := NoNotice;
      request := Some(PostRequest(newPostContent, topicId));
    }

    /**
     * `handleSendPost` after its `await`. Success sets the success message, clears the textarea,
     * starts a reload and schedules the timer that hides the message; otherwise the error message is
     * set and the reply kept.
     */
    method FinishPost(response: PostOutcome) returns (reload: Option<int>, hideScheduled: bool)
      requires Valid()
      modifies this`sendMessage, this`isSending, this`newPostContent, this`loading, this`error
      ensures Valid() && !isSending
      ensures hideScheduled <==> response.Accepted?
      ensures response.Accepted? ==>
                sendMessage == SuccessNotice(PostSent) && newPostContent == "" && LoadStarted(reload)
      ensures !response.Accepted? ==>
                && sendMessage == ErrorNotice(FailureText(response, SendFailedPrefix, ConnectionFailed))
                && newPostContent == old(newPostContent)
                && loading == old(loading) && error == old(error) && reload == None
    {
      if response.Accepted? {
        sendMessage := SuccessNotice(PostSent);
        newPostContent := "";
        reload := StartFetchPosts();
        hideScheduled := true;
      } else {
        sendMessage := ErrorNotice(FailureText(response, SendFailedPrefix, ConnectionFailed));
        reload, hideScheduled := None, false;
      }
      isSending := false;
    }

    /** The `setTimeout` callback two seconds after a sent reply: it clears the message and nothing else. */
    method HideTimerFired()
      requires Valid()
      modifies this`sendMessage
      ensures Valid() && sendMessage == NoNotice
    {
      sendMessage := NoNotice;
    }

    /**
     * What the component renders. In a valid state a running load never shows the error page, and
     * the reply form shows exactly the message last set.
     */
    function Shown(): (s: Screen)
      reads this
      requires Valid()
      ensures loading ==> !s.ErrorScreen?
      ensures s.ThreadScreen? ==> s.form.notice == sendMessage
    {
      Render(topicId, topicTitle, topicContent, loading, posts, error, sendMessage, isSending)
    }
  }
}
