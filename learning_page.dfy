/**
 * The learning page: the fetched learning path, the selected topic (the
 * first incomplete one after a fetch), the header title, and the
 * visibility of the learning-path panel.
 */
module LearningPage {
  import opened Js

  /** `is_completed` is read only for its truthiness, which `completed` records. */
  datatype Topic = Topic(topicId: int, title: string, description: string, completed: bool, languageId: int)

  /** The fetch of the course's topics: the reply's `data.topics`, or a failure. */
  datatype TopicsReply = Topics(topics: seq<Topic>) | FetchFailed

  const NoTopicTitle: string := "Select a Topic"

  /** Position `i` holds the first topic that is not completed. */
  predicate FirstIncompleteAt(topics: seq<Topic>, i: int)
  {
    0 <= i < |topics| && !topics[i].completed && forall j :: 0 <= j < i ==> topics[j].completed
  }

  /** `topics.find(topic => !topic.is_completed)`. */
  function FirstIncomplete(topics: seq<Topic>): (r: Option<Topic>)
    ensures r.None? <==> forall i :: 0 <= i < |topics| ==> topics[i].completed
    ensures r.Some? ==> exists i :: FirstIncompleteAt(topics, i) && topics[i] == r.value
  {
    if topics == [] then None
    else if !topics[0].completed then Some(topics[0])
    else
      FirstIncompleteShift(topics);
      FirstIncomplete(topics[1..])
  }

  /** Past a completed head, the first incomplete position of the tail is one further on in the list. */
  lemma FirstIncompleteShift(topics: seq<Topic>)
    requires topics != [] && topics[0].completed
    ensures forall i :: FirstIncompleteAt(topics[1..], i) ==> FirstIncompleteAt(topics, i + 1)
  {
  }

  /** `firstIncomplete || topics[0]`. */
  function TopicToSelect(topics: seq<Topic>): (r: Option<Topic>)
    ensures r.None? <==> topics == []
    ensures r.Some? ==> r.value in topics
    ensures (exists i :: 0 <= i < |topics| && !topics[i].completed) ==>
      r.Some? && !r.value.completed
    ensures topics != [] && (forall i :: 0 <= i < |topics| ==> topics[i].completed) ==>
      r == Some(topics[0])
  {
    var first := FirstIncomplete(topics);
    if first.Some? then first
    else if topics != [] then Some(topics[0])
    else None
  }

  /** The topic picked is the first incomplete one: every topic before it is completed. */
  lemma SelectedIsFirstIncomplete(topics: seq<Topic>, k: nat)
    requires FirstIncompleteAt(topics, k)
    ensures TopicToSelect(topics) == Some(topics[k])
  {
  }

  /** The heading: the selected topic's title, otherwise "Select a Topic". */
  function HeaderTitle(selected: Option<Topic>): (r: string)
    ensures selected.Some? ==> r == selected.value.title
    ensures selected.None? ==> r == NoTopicTitle
  {
    match selected
    case Some(t) => t.title
    case None => NoTopicTitle
  }

  class LearningPageState {
    var isLearningPathVisible: bool
    var learningPath: seq<Topic>
    var selectedTopic: Option<Topic>

    constructor ()
      ensures isLearningPathVisible && learningPath == [] && selectedTopic.None?
    {
      isLearningPathVisible := true;
      learningPath := [];
      selectedTopic := None;
    }

    /**
     * `fetchTopics`: without a route id or on a failed request nothing
     * changes; otherwise the path becomes the fetched list and the selection
     * moves to `TopicToSelect`, except that an empty list keeps the selection.
     */
    method FetchTopics(routeId: Option<string>, reply: TopicsReply)
      modifies this
      ensures isLearningPathVisible == old(isLearningPathVisible)
      ensures !RoutePresent(routeId) || reply.FetchFailed? ==>
        learningPath == old(learningPath) && selectedTopic == old(selectedTopic)
      ensures RoutePresent(routeId) && reply.Topics? ==>
        learningPath == reply.topics &&
        selectedTopic == (if reply.topics == [] then old(selectedTopic) else TopicToSelect(reply.topics))
    {
      if !RoutePresent(routeId) {
        return;
      }
      match reply
      case FetchFailed =>
      case Topics(topics) =>
        learningPath := topics;
        var toSelect := TopicToSelect(topics);
        if toSelect.Some? {
          selectedTopic := toSelect;
        }
    }

    method HandleTopicSelect(topic: Topic)
      modifies this
      ensures selectedTopic == Some(topic)
      ensures learningPath == old(learningPath) && isLearningPathVisible == old(isLearningPathVisible)
    {
      selectedTopic := Some(topic);
    }

    method ToggleLearningPath()
      modifies this
      ensures isLearningPathVisible == !old(isLearningPathVisible)
      ensures learningPath == old(learningPath) && selectedTopic == old(selectedTopic)
    {
      isLearningPathVisible := !isLearningPathVisible;
    }
  }

  /** Toggling the panel twice restores its visibility and nothing else moves. */
  method ToggleTwice(page: LearningPageState)
    modifies page
    ensures page.isLearningPathVisible == old(page.isLearningPathVisible)
    ensures page.learningPath == old(page.learningPath) && page.selectedTopic == old(page.selectedTopic)
  {
    page.ToggleLearningPath();
    page.ToggleLearningPath();
  }
}
