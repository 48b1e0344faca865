# RevForum front end, modelled in Dafny

RevForum is a small discussion forum. Its React front end shows a sidebar of views and a set of
list screens. Themes hold sub-themes, sub-themes hold topics, and topics hold posts. There are also
a user table with login and registration forms, and an older listing of static categories with a
search box.

This project models that front end's logic:

- **The category search** (`filterData`). It keeps the threads whose lower-cased title contains the
  lower-cased query, then drops the subcategories and categories that end up empty. The function
  exists twice:
  - `CategorySearch` is the rev-front copy, written as a map/filter chain like the original.
  - `Forum` is the copy in `components/Forum.jsx`, written as plain recursion.

  Both copies are proved against one flat description of the catalogue, `CategorySearch.Paths`.
  That description lists every thread together with the fields of its subcategory and category.
- **The two shells** (`RevFrontApp` and `App`). Each picks the screen from the `activeView` string
  and marks the active sidebar item.
- **One class per stateful component**: `TopicsList`, `SubThemesList`, `ThemesList`, `TopicView`,
  `UserTable`, `Register` and `Login`. Each `useState` value is a field. Each handler is a method
  whose `modifies` clause names the fields it may set.
  - An `async` handler is split at its `await`. The first method runs the checks and everything up
    to the request. It returns the request it sends, or `None` when it sends nothing. The loads of
    `UserTable` and `ThemesList` always send the same fixed GET, so their first methods return
    nothing. The second method takes the request's outcome and runs the rest, `finally` included.
    It returns what it starts next, where the handler starts anything: a reload, a timer or an
    alert.
  - Each `setTimeout` callback is a method of its own.
  - What a component renders is a pure `Render` function of its fields. Each class has `Shown()`,
    which applies `Render` to the current state and states what the class invariant `Valid()`
    guarantees about the screen.
  - A text input updates its field directly, with no method.

The network is a parameter:

- A list load comes to `Fetched`, `HttpError(status, body)` or `FetchThrew(message)`.
- A create, send, login or register request comes to `Accepted(message)`,
  `Rejected(status, statusText, error)` or `PostThrew`.

The helper modules are:

- `Wrappers`: `Option`.
- `Seqs`: `Map` and `Filter`.
- `Text`: the JavaScript string operations used.
- `Remote`: the outcomes and the messages built from them.
- `Entities`: the API records.

Two behaviours one might expect are absent from the code:

- `ThemesList` never opens a theme's sub-themes, so nothing drills down from themes to topics.
- `Login` stores no session. It only shows an alert.

The model follows the code in both cases.

## Model

| member | source | states |
|---|---|---|
| CategorySearch.FilterData | frontend/rev-front/src/App.jsx:89-106 | an empty query returns the categories unchanged; the result never has more categories than the input |
| CategorySearch.PathsOfFilterData | frontend/rev-front/src/App.jsx:92-101 | the (category, subcategory, thread) triples of the result are exactly the input's triples whose thread matches, in input order |
| CategorySearch.ThreadKeptIffMatches | frontend/rev-front/src/App.jsx:92-101 | a thread is in the result iff it is in the input and its lower-cased title contains the lower-cased query |
| CategorySearch.FilterDataPrunes | frontend/rev-front/src/App.jsx:103-105 | for a non-empty query, no category in the result is empty and no subcategory in it is empty |
| CategorySearch.CategoriesOfFilterData | frontend/rev-front/src/App.jsx:93-98 | for a non-empty query, the surviving categories are those with a matching thread, in input order, with id, title and icon unchanged |
| CategorySearch.SubcategoriesOfNarrowedCategory | frontend/rev-front/src/App.jsx:93-98 | narrowing one category keeps its id, title and icon, and keeps, in order, its subcategories with a matching thread, with id and title unchanged |
| CategorySearch.SubcategoriesOfFilterData | frontend/rev-front/src/App.jsx:93-105 | for a non-empty query the i-th surviving category comes from the i-th input category with a matching thread, with its fields unchanged; its subcategories are, in order, that category's subcategories with a matching thread, with id and title unchanged |
| CategorySearch.FilterDataIdempotent | frontend/rev-front/src/App.jsx:93-105 | filtering the result again with the same query returns it unchanged |
| CategorySearch.FilterDataNeverAddsThreads | frontend/rev-front/src/App.jsx:99-101 | the result never has more threads than the input |
| Forum.FilterData | frontend/src/components/Forum.jsx:83-100 | an empty query returns the categories unchanged |
| Forum.FilterDataAgrees | frontend/src/components/Forum.jsx:83-100 | for every catalogue and every query, the Forum.jsx copy returns the same as the rev-front copy |
| Forum.FilterDataProperties | frontend/src/components/Forum.jsx:84-99 | the Forum.jsx copy keeps exactly the matching threads in order, drops empty subcategories and categories, keeps category fields and order, and is idempotent |
| RevFrontApp.SelectScreen | frontend/rev-front/src/App.jsx:182-190 | 'users', 'login' and 'register' select the user table, login and register, each iff the view has that value; any other value selects the listing of the filtered static catalogue |
| RevFrontApp.AtMostOneActive | frontend/rev-front/src/App.jsx:117-157 | the eight sidebar keys are distinct, so at most one item is marked active |
| RevFrontApp.ClickMarksItem | frontend/rev-front/src/App.jsx:117-190 | after a click on item i, item i and no other is marked active, and the listing is shown iff the item is one of the first five (home to settings) |
| RevFrontApp.Shell.constructor | frontend/rev-front/src/App.jsx:9-11 | the search query starts empty and the view starts as 'home' |
| RevFrontApp.Shell.ClickItem | frontend/rev-front/src/App.jsx:117-157 | a click sets `activeView` to the item's key and changes nothing else, the search query included; afterwards exactly that item is active |
| App.SelectScreen | frontend/src/App.jsx:84-95 | 'home', 'login' and 'register' select the themes list, login and register, each iff the view has that value; any other value selects the placeholder for that view |
| App.PlaceholderText | frontend/src/App.jsx:92-94 | the placeholder names the view |
| App.AtMostOneActive | frontend/src/App.jsx:29-55 | the seven sidebar keys are distinct, so at most one item is marked active |
| Sidebar.ActiveMarks | frontend/src/App.jsx:29-55 | item i is marked active iff its key equals `activeView`; over distinct keys at most one item is marked; some item is marked iff the view is one of the keys |
| App.Shell.constructor | frontend/src/App.jsx:9-12 | the view starts as 'home', which shows the themes list |
| App.Shell.ClickItem | frontend/src/App.jsx:29-57 | a click sets `activeView` to the item's key and changes nothing else, the search query included; afterwards exactly that item is active |
| Remote.LoadFailureMessage | frontend/src/TopicsList.jsx:35-38 | the error of a non-ok load contains the HTTP status and contains the body, or 'Unknown error' when the body is empty |
| Remote.StatusFallback | frontend/src/TopicsList.jsx:98 | the fallback starts with its prefix and contains the status |
| Remote.FormOf | frontend/src/TopicsList.jsx:210-214 | a form shows its message iff the message has a text, and only that message; the button is disabled iff a request runs |
| Remote.FailureText | frontend/src/TopicsList.jsx:96-102 | a rejection gives the server's `error`, or the status fallback when it is empty; a thrown request gives the fixed connection text; the text is never empty |
| Text.Trim | frontend/src/TopicsList.jsx:60 | the trimmed text is a slice of the input with no whitespace at either end |
| Text.Lower | frontend/rev-front/src/App.jsx:92-101 | lower-casing keeps the length |
| Text.LowerCases | frontend/rev-front/src/App.jsx:92-101 | lower-casing leaves no upper-case letter and changes no other character |
| Text.ContainsIff | frontend/rev-front/src/App.jsx:99-101 | `includes` holds iff the needle occurs at some position |
| Text.DecimalRoundTrip | frontend/src/TopicsList.jsx:37 | the decimal text of a status reads back as that status |
| Text.Utf16Length | frontend/src/Register.jsx:25 | JavaScript's string length is at least the number of characters and at most twice it |
| TopicsList.Render | frontend/src/TopicsList.jsx:132-196 | a selected topic shows its view whatever else holds; then a missing sub-theme; then loading with no topics; then a load error; otherwise the list, marked as refreshing iff it is loading with topics, with the create modal (its message and its button state) iff the modal is open |
| TopicsList.Component.Shown | frontend/src/TopicsList.jsx:132-245 | in a valid state a running load never shows the error page, and an open modal shows exactly the message last set |
| TopicsList.Component.constructor | frontend/src/TopicsList.jsx:6-18 | the initial state: no topics, loading, no error, modal closed, empty form, no message, no selection |
| TopicsList.Component.StartFetchTopics | frontend/src/TopicsList.jsx:21-30 | without a sub-theme id: the 'ID подтемы не указан.' error, loading false, no request; otherwise loading true, error cleared, a request for that id |
| TopicsList.Component.FinishFetchTopics | frontend/src/TopicsList.jsx:35-48 | success replaces the topics; HTTP failure and a thrown request set the error and keep the topics; loading ends false |
| TopicsList.Component.ReceiveSubThemeId | frontend/src/TopicsList.jsx:52-54 | a changed sub-theme id starts a load for it; the same id does nothing |
| TopicsList.Component.SubmitCreateTopic | frontend/src/TopicsList.jsx:57-80 | a blank title sets the error message and sends nothing; otherwise creating starts, the message clears, and title, content and sub-theme id are sent |
| TopicsList.Component.FinishCreateTopic | frontend/src/TopicsList.jsx:83-105 | success: the success message, title and content cleared, the list reloaded, the close timer scheduled; failure: the failure text, form kept, no reload; creating ends false on every path |
| TopicsList.Component.CloseTimerFired | frontend/src/TopicsList.jsx:92-95 | the modal closes and the message clears |
| TopicsList.Component.OpenCreateModal | frontend/src/TopicsList.jsx:109-112 | the modal opens and the message clears; the form keeps its text |
| TopicsList.Component.CloseCreateModal | frontend/src/TopicsList.jsx:114-119 | the modal closes; title, content and message clear |
| TopicsList.Component.ViewTopic | frontend/src/TopicsList.jsx:122-124 | the component then shows that topic's view with its id and title |
| TopicsList.Component.BackToTopics | frontend/src/TopicsList.jsx:127-129 | the selection clears and the topic view is no longer shown |
| SubThemesList.Render | frontend/rev-front/src/SubThemesList.jsx:118-159 | a missing theme, then loading with no sub-themes, then a load error; otherwise the list, marked as refreshing iff it is loading with sub-themes, with the create modal (its message and its button state) iff the modal is open |
| SubThemesList.Component.Shown | frontend/rev-front/src/SubThemesList.jsx:118-210 | in a valid state a running load never shows the error page, and an open modal shows exactly the message last set |
| SubThemesList.Component.constructor | frontend/rev-front/src/SubThemesList.jsx:6-15 | the initial state, with the status 'Активна' |
| SubThemesList.Component.StartFetchSubThemes | frontend/rev-front/src/SubThemesList.jsx:18-27 | without a theme id: the 'ID темы не указан.' error, loading false, no request; otherwise loading true, error cleared, a request for that id |
| SubThemesList.Component.FinishFetchSubThemes | frontend/rev-front/src/SubThemesList.jsx:32-45 | success replaces the sub-themes; a failure sets the error and keeps them; loading ends false |
| SubThemesList.Component.ReceiveThemeId | frontend/rev-front/src/SubThemesList.jsx:49-51 | a changed theme id starts a load for it; the same id does nothing |
| SubThemesList.Component.SubmitCreateSubTheme | frontend/rev-front/src/SubThemesList.jsx:54-77 | a blank title sets the error message and sends nothing; otherwise title, status and `parent_id` equal to the theme id are sent |
| SubThemesList.Component.FinishCreateSubTheme | frontend/rev-front/src/SubThemesList.jsx:80-102 | success: the success message, title cleared, status reset to 'Активна', a reload, the close timer scheduled; failure: the failure text, form kept; creating ends false |
| SubThemesList.Component.CloseTimerFired | frontend/rev-front/src/SubThemesList.jsx:89-92 | the modal closes and the message clears |
| SubThemesList.Component.OpenCreateModal | frontend/rev-front/src/SubThemesList.jsx:106-109 | the modal opens and the message clears |
| SubThemesList.Component.CloseCreateModal | frontend/rev-front/src/SubThemesList.jsx:111-116 | the modal closes, the title clears, the status resets to 'Активна', the message clears |
| ThemesList.Render | frontend/rev-front/src/ThemesList.jsx:101-178 | loading with no themes, then a load error; otherwise the form's success and error lines and the list, marked as refreshing iff it is loading with themes |
| ThemesList.Component.Shown | frontend/rev-front/src/ThemesList.jsx:101-112 | in a valid state a running load never shows the error page, and the form's error line is exactly the error last set |
| ThemesList.Component.constructor | frontend/rev-front/src/ThemesList.jsx:5-14 | the initial state, with the status 'Активна' |
| ThemesList.Component.StartFetchThemes | frontend/rev-front/src/ThemesList.jsx:17-21 | with no guard: loading true and error cleared before every request |
| ThemesList.Component.FinishFetchThemes | frontend/rev-front/src/ThemesList.jsx:23-36 | success replaces the themes; a failure sets the error and keeps them; loading ends false |
| ThemesList.Component.SubmitCreateTheme | frontend/rev-front/src/ThemesList.jsx:45-71 | a blank title sets the form error and leaves the success flag and `isCreating` unchanged; otherwise creating starts, both lines clear, and title and status are sent |
| ThemesList.Component.FinishCreateTheme | frontend/rev-front/src/ThemesList.jsx:74-98 | success: the success flag, title cleared, status reset, a reload; failure: the form error set to the failure text, form kept; creating ends false |
| TopicView.Numbered | frontend/src/TopicView.jsx:138-142 | reply i of the list is shown with number i + 1, its author and its text |
| TopicView.Render | frontend/src/TopicView.jsx:105-186 | a missing topic, then loading with no posts, then a load error; otherwise the title, the description iff there is one, the numbered replies, and the form's message iff it has a text |
| TopicView.Component.Shown | frontend/src/TopicView.jsx:105-165 | in a valid state a running load never shows the error page, and the reply form shows exactly the message last set |
| TopicView.Component.constructor | frontend/src/TopicView.jsx:7-14 | the initial state |
| TopicView.Component.StartFetchPosts | frontend/src/TopicView.jsx:17-26 | without a topic id: the 'ID топика не указан.' error, loading false, no request; otherwise loading true, error cleared, a request |
| TopicView.Component.FinishFetchPosts | frontend/src/TopicView.jsx:31-48 | success replaces the posts; a failure sets the error and keeps them; loading ends false |
| TopicView.Component.ReceiveTopicId | frontend/src/TopicView.jsx:52-54 | a changed topic id starts a load for it; the same id does nothing |
| TopicView.Component.SubmitPost | frontend/src/TopicView.jsx:57-79 | blank content sets the error message and sends nothing; otherwise sending starts, the message clears, and content and topic id are sent |
| TopicView.Component.FinishPost | frontend/src/TopicView.jsx:82-102 | success: the success message, content cleared, a reload, the hide timer scheduled; failure: the failure text, content kept; sending ends false |
| TopicView.Component.HideTimerFired | frontend/src/TopicView.jsx:90-92 | only the message clears |
| UserTable.RowOf | frontend/src/UserTable.jsx:57-64 | a row shows the user's id, name and e-mail; with no creation date it shows 'N/A', otherwise the date's text |
| UserTable.Render | frontend/src/UserTable.jsx:38-69 | loading shows the loading view; then a load error; then one row per user in order, or the empty message iff there are no users |
| UserTable.Component.Shown | frontend/src/UserTable.jsx:38-39 | in a valid state an error that was set is always shown |
| UserTable.Component.constructor | frontend/src/UserTable.jsx:5-7 | no users, loading, no error |
| UserTable.Component.StartFetchUsers | frontend/src/UserTable.jsx:9-13 | the error clears and loading starts |
| UserTable.Component.FinishFetchUsers | frontend/src/UserTable.jsx:18-32 | success replaces the users; a non-ok response sets an error containing the status; loading ends false |
| Register.Render | frontend/src/Register.jsx:76-78 | the error line and the success line are each shown iff they have a text; the button is disabled iff loading |
| Register.Component.Shown | frontend/src/Register.jsx:76-78 | while a request is pending neither line is shown |
| Register.PasswordProblem | frontend/src/Register.jsx:20-29 | a mismatch is reported first, even for a short password; then a length under 6; a request may be sent iff the passwords match and are at least 6 long |
| Register.Component.constructor | frontend/src/Register.jsx:5-11 | empty fields, no lines, not loading |
| Register.Component.Submit | frontend/src/Register.jsx:13-41 | both lines clear; a failed check sets its message, ends loading and sends nothing; otherwise user name, e-mail and password are sent while loading |
| Register.Component.Finish | frontend/src/Register.jsx:44-69 | success: the server's message or the default, the four fields cleared; failure: the failure text, fields kept; loading ends false |
| Login.Complete | frontend/src/Login.jsx:19 | the form may be sent iff the user name holds a non-whitespace character and the password is not empty |
| Login.Render | frontend/src/Login.jsx:80 | the error line is shown iff it has a text; the button is disabled iff loading |
| Login.Component.Shown | frontend/src/Login.jsx:80 | while a request is pending no error line is shown |
| Login.Component.constructor | frontend/src/Login.jsx:7-10 | empty fields, no error, not loading |
| Login.Component.Submit | frontend/src/Login.jsx:13-36 | the error clears; a blank user name or an empty password sets 'Пожалуйста, заполните все поля.', ends loading and sends nothing; otherwise both fields are sent untrimmed |
| Login.Component.Finish | frontend/src/Login.jsx:39-73 | success: an alert with the server's message or the default, the error unchanged; failure: the failure text or the login connection text; loading ends false |

## Left out

- The network, `response.json()`, `response.text()` and JSON decoding are not modelled. Each request is replaced by the outcome it comes to. A body that is not JSON is treated like a thrown request.
- A non-string `data.error` or `data.message` is not modelled: each is a string, and "" stands for an absent one.
- Time is not modelled. The 1.5 s and 2 s delays of the timers are not represented. Each callback is a method the caller may run at any later point.
- Mounting is not a method of its own. The first run of each load effect (the `[]` effects of UserTable and ThemesList, the `[id]` effects of TopicsList, SubThemesList and TopicView) is the caller's first call of the component's `StartFetch` method after its constructor, as with the timers. That it runs once, and right after the first render, is not enforced.
- Concurrency is not modelled. A reload started after a create is not awaited by the source. Responses that arrive out of order, or after the component has unmounted, can overwrite state in the source, and the model does not capture this.
- The request URLs, headers and HTTP methods are not modelled. Each request is modelled by its JSON body and by the id it names.
- `parseInt(id, 10)`: the ids are modelled as integers. NaN is modelled as an absent id.
- The layout of the JSX markup, CSS, icons and the Header and Categories components are not modelled: they are presentation only. The markup's form attributes do carry behaviour; the next line says what of it is left out.
- Login.Component.Submit, Register.Component.Submit, TopicsList.Component.SubmitCreateTopic, SubThemesList.Component.SubmitCreateSubTheme, ThemesList.Component.SubmitCreateTheme and TopicView.Component.SubmitPost: the browser's constraint validation is not modelled. The inputs carry `required` (frontend/src/Login.jsx:90,100; frontend/src/Register.jsx:88,98,108,118; frontend/src/TopicsList.jsx:223; frontend/src/TopicView.jsx:175; frontend/rev-front/src/SubThemesList.jsx:186; frontend/rev-front/src/ThemesList.jsx:121), Register's e-mail input has `type="email"` (frontend/src/Register.jsx:94), and no form sets `noValidate`. In a browser an empty field or a malformed e-mail stops the submit before the handler runs. Each Submit method models the handler as if it were always reached, so the model accepts more inputs than the browser passes on. In particular, the handlers' own checks for an empty field are reached in the model but not in a browser. Their checks for a whitespace-only title or user name are reached in both.
- `console.log` is not modelled, and the rendering of `alert` is not modelled: `Login.Component.Finish` returns the alert's text instead.
- `Date.toLocaleString` and `Date.toLocaleDateString` are not modelled: a date is shown as the text the server sent. A text that is not a valid date, for which the source shows "Invalid Date", is shown as it is.
- Text.Lower: lower-cases only ASCII and the Cyrillic capitals U+0400 to U+042F. Other characters are left unchanged, which is weaker than JavaScript's full Unicode `toLowerCase`.
- The Go backend is not part of this model. Its handlers delegate their decisions to database queries, password hashing and token signing, which are not visible here.
