/** The records the front end works with and its navigation state. */
module Knowledge {
  import opened Wrappers

  /** A topic: a sphere of the universe view. Its position is not modelled. */
  datatype Topic = Topic(id: string, userId: string, name: string, color: string)

  /** A subtopic of a topic. */
  datatype Subtopic = Subtopic(id: string, topicId: string, userId: string, name: string)

  /** A saved note. `imageDescription` is the optional field the edit dialog also
      reads and writes. */
  datatype Entry = Entry(
    id: string, subtopicId: string, userId: string, title: string,
    content: Option<string>, tags: seq<string>, imageDescription: Option<string>)

  /** How deep the user has navigated. */
  datatype ViewLevel = Root | CategoryLevel | Editor

  datatype NavigationState = NavigationState(
    level: ViewLevel, activeTopic: Option<Topic>, activeSubtopic: Option<Subtopic>)
}
