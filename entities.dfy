/** The records the forum API returns, as the components read them. */
module Entities {
  import opened Wrappers

  datatype Theme = Theme(id: int, title: string, status: string, createdAt: string)

  datatype SubTheme = SubTheme(id: int, title: string, status: string, createdAt: string, parentId: int)

  datatype Topic = Topic(id: int, title: string, content: string, authorId: int, createdAt: string,
                         postCount: Option<int>, subThemeId: int)

  datatype Post = Post(id: int, content: string, authorId: int, createdAt: string, topicId: int)

  datatype User = User(id: int, username: string, email: string, createdAt: string)

  /** The default status of the theme and sub-theme forms. */
  const ActiveStatus := "Активна"

  /**
   * A parent-id prop tested with `!id`: an absent prop (`undefined`/`null`) is missing,
   * and so is the number 0, which JavaScript treats as false.
   */
  predicate Given(id: Option<int>) {
    id.Some? && id.value != 0
  }
}
