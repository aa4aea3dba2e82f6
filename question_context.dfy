/**
 * The question store of the compiler workspace: an ordered list of questions
 * and the question currently shown, with load, select-by-id, submit and the
 * clamped next/previous moves.
 */
module QuestionContext {
  import opened Js

  datatype TestCase = TestCase(testCaseId: int, input: string, output: string)

  /** `submitted?: boolean`: an absent flag reads as false wherever it is used. */
  datatype Question = Question(
    questionId: int,
    title: string,
    description: string,
    sampleInput: string,
    sampleOutput: string,
    explanation: string,
    testCases: seq<TestCase>,
    submitted: bool)

  /** The fetch of the question list: the reply's `data.questions`, which may be absent, or a failure. */
  datatype QuestionsReply = Fetched(questions: Option<seq<Question>>) | FetchFailed

  predicate HasId(qs: seq<Question>, id: int)
  {
    exists i :: 0 <= i < |qs| && qs[i].questionId == id
  }

  /** `i` is the first position of `qs` whose question carries `id`. */
  predicate FirstAt(qs: seq<Question>, id: int, i: int)
  {
    0 <= i < |qs| && qs[i].questionId == id && forall j :: 0 <= j < i ==> qs[j].questionId != id
  }

  /** No two positions of the list carry the same id. */
  predicate UniqueIds(qs: seq<Question>)
  {
    forall i, j :: 0 <= i < |qs| && 0 <= j < |qs| && qs[i].questionId == qs[j].questionId ==> i == j
  }

  /** `questions.findIndex(q => q.question_id === id)`: the first matching position, or -1. */
  function FindIndex(qs: seq<Question>, id: int): (r: int)
    ensures -1 <= r < |qs|
    ensures r == -1 <==> !HasId(qs, id)
    ensures r != -1 ==> FirstAt(qs, id, r)
  {
    if |qs| == 0 then -1
    else if qs[0].questionId == id then 0
    else
      var k := FindIndex(qs[1..], id);
      if k == -1 then -1 else k + 1
  }

  /** `questions.find(q => q.question_id === id) || null`. */
  function Find(qs: seq<Question>, id: int): (r: Option<Question>)
    ensures r.None? <==> !HasId(qs, id)
    ensures r.Some? ==> exists i :: FirstAt(qs, id, i) && qs[i] == r.value
  {
    var k := FindIndex(qs, id);
    if k == -1 then None else Some(qs[k])
  }

  /** `prev.map(q => q.question_id === id ? { ...q, submitted: true } : q)`. */
  function MarkSubmitted(qs: seq<Question>, id: int): (r: seq<Question>)
    ensures |r| == |qs|
    ensures forall i :: 0 <= i < |qs| ==>
      r[i] == (if qs[i].questionId == id then qs[i].(submitted := true) else qs[i])
  {
    if qs == [] then []
    else
      var head := if qs[0].questionId == id then qs[0].(submitted := true) else qs[0];
      [head] + MarkSubmitted(qs[1..], id)
  }

  /** The list a successful load installs: `response.data.data.questions || []`. */
  function FetchedList(questions: Option<seq<Question>>): (r: seq<Question>)
    ensures questions.Some? ==> r == questions.value
    ensures questions.None? ==> r == []
  {
    match questions
    case Some(qs) => qs
    case None => []
  }

  /** The selection after a successful load: the first question, only when nothing was selected. */
  function LoadSelection(fetched: seq<Question>, cur: Option<Question>): (r: Option<Question>)
    ensures cur.Some? ==> r == cur
    ensures cur.None? && fetched == [] ==> r.None?
    ensures cur.None? && fetched != [] ==> r == Some(fetched[0])
  {
    if |fetched| > 0 && cur.None? then Some(fetched[0]) else cur
  }

  /** The selection after `nextQuestion`, which looks the current question up by id. */
  function NextSelection(qs: seq<Question>, cur: Option<Question>): (r: Option<Question>)
    ensures cur.None? ==> r.None?
    ensures cur.Some? && !HasId(qs, cur.value.questionId) ==>
      r == (if qs == [] then cur else Some(qs[0]))
    ensures cur.Some? ==> forall i {:trigger FirstAt(qs, cur.value.questionId, i)} ::
      FirstAt(qs, cur.value.questionId, i) ==> r == (if i + 1 < |qs| then Some(qs[i + 1]) else cur)
    ensures r != cur ==> r.Some? && r.value in qs
  {
    if cur.None? then cur
    else
      var idx := FindIndex(qs, cur.value.questionId);
      if idx < |qs| - 1 then Some(qs[idx + 1]) else cur
  }

  /** The selection after `previousQuestion`. */
  function PreviousSelection(qs: seq<Question>, cur: Option<Question>): (r: Option<Question>)
    ensures cur.None? ==> r.None?
    ensures cur.Some? && !HasId(qs, cur.value.questionId) ==> r == cur
    ensures cur.Some? ==> forall i {:trigger FirstAt(qs, cur.value.questionId, i)} ::
      FirstAt(qs, cur.value.questionId, i) ==> r == (if i > 0 then Some(qs[i - 1]) else cur)
    ensures r != cur ==> r.Some? && r.value in qs
  {
    if cur.None? then cur
    else
      var idx := FindIndex(qs, cur.value.questionId);
      if idx > 0 then Some(qs[idx - 1]) else cur
  }

  /** `k` presses of "next". */
  function NextTimes(qs: seq<Question>, cur: Option<Question>, k: nat): Option<Question>
    decreases k
  {
    if k == 0 then cur else NextTimes(qs, NextSelection(qs, cur), k - 1)
  }

  /** `k` presses of "previous". */
  function PreviousTimes(qs: seq<Question>, cur: Option<Question>, k: nat): Option<Question>
    decreases k
  {
    if k == 0 then cur else PreviousTimes(qs, PreviousSelection(qs, cur), k - 1)
  }

  function Min(a: int, b: int): int { if a < b then a else b }
  function Max(a: int, b: int): int { if a < b then b else a }

  lemma UniqueFirstAt(qs: seq<Question>, i: int)
    requires UniqueIds(qs) && 0 <= i < |qs|
    ensures FirstAt(qs, qs[i].questionId, i)
  {
  }

  /** Submitting again changes nothing: the operation is idempotent. */
  lemma SubmitIdempotent(qs: seq<Question>, id: int)
    ensures MarkSubmitted(MarkSubmitted(qs, id), id) == MarkSubmitted(qs, id)
  {
  }

  /** Submitting keeps every id in its place, so lookups and moves by id are unaffected. */
  lemma SubmitKeepsIndex(qs: seq<Question>, id: int, x: int)
    ensures FindIndex(MarkSubmitted(qs, id), x) == FindIndex(qs, x)
  {
  }

  /** With unique ids, a "next" that moves is undone by "previous", up to a refreshed copy of the question. */
  lemma NextThenPrevious(qs: seq<Question>, cur: Option<Question>, i: int)
    requires UniqueIds(qs) && cur.Some? && FirstAt(qs, cur.value.questionId, i) && i + 1 < |qs|
    ensures PreviousSelection(qs, NextSelection(qs, cur)) == Some(qs[i])
    ensures cur.value in qs ==> PreviousSelection(qs, NextSelection(qs, cur)) == cur
  {
  }

  /** With unique ids, a "previous" that moves is undone by "next". */
  lemma PreviousThenNext(qs: seq<Question>, cur: Option<Question>, i: int)
    requires UniqueIds(qs) && cur.Some? && FirstAt(qs, cur.value.questionId, i) && i > 0
    ensures NextSelection(qs, PreviousSelection(qs, cur)) == Some(qs[i])
    ensures cur.value in qs ==> NextSelection(qs, PreviousSelection(qs, cur)) == cur
  {
  }

  /** Any number of "next" presses from position `i` stops at the last question: no wrap-around. */
  lemma {:induction false} NextClamped(qs: seq<Question>, i: nat, k: nat)
    requires UniqueIds(qs) && i < |qs|
    ensures NextTimes(qs, Some(qs[i]), k) == Some(qs[Min(i + k, |qs| - 1)])
    decreases k
  {
    if k > 0 {
      UniqueFirstAt(qs, i);
      var j := Min(i + 1, |qs| - 1);
      assert NextSelection(qs, Some(qs[i])) == Some(qs[j]);
      NextClamped(qs, j, k - 1);
    }
  }

  /** Any number of "previous" presses from position `i` stops at the first question. */
  lemma {:induction false} PreviousClamped(qs: seq<Question>, i: nat, k: nat)
    requires UniqueIds(qs) && i < |qs|
    ensures PreviousTimes(qs, Some(qs[i]), k) == Some(qs[Max(i - k, 0)])
    decreases k
  {
    if k > 0 {
      UniqueFirstAt(qs, i);
      var j := Max(i - 1, 0);
      assert PreviousSelection(qs, Some(qs[i])) == Some(qs[j]);
      PreviousClamped(qs, j, k - 1);
    }
  }

  /** The state of `QuestionProvider`. */
  class QuestionProvider {
    var questions: seq<Question>
    var currentQuestion: Option<Question>

    constructor ()
      ensures questions == [] && currentQuestion.None?
    {
      questions := [];
      currentQuestion := None;
    }

    /**
     * The load step of `handlefetchQuestion`: no route id or a failed fetch
     * changes nothing; otherwise install the fetched list and select its first
     * question when nothing is selected.
     */
    method Load(routeId: Option<string>, reply: QuestionsReply)
      modifies this
      ensures !RoutePresent(routeId) || reply.FetchFailed? ==>
        questions == old(questions) && currentQuestion == old(currentQuestion)
      ensures RoutePresent(routeId) && reply.Fetched? ==>
        questions == FetchedList(reply.questions) &&
        currentQuestion == LoadSelection(questions, old(currentQuestion))
    {
      if !RoutePresent(routeId) {
        return;
      }
      match reply
      case FetchFailed =>
      case Fetched(fetched) =>
        var list := FetchedList(fetched);
        questions := list;
        if |list| > 0 && currentQuestion.None? {
          currentQuestion := Some(list[0]);
        }
    }

    /** `setCurrentQuestion`: the first question with that id, or no selection at all when none matches. */
    method SetCurrentQuestion(id: int)
      modifies this
      ensures questions == old(questions)
      ensures currentQuestion == Find(questions, id)
      ensures currentQuestion.None? <==> !HasId(questions, id)
    {
      currentQuestion := Find(questions, id);
    }

    /** `submitQuestion`: marks every question with that id; the current question is not refreshed. */
    method SubmitQuestion(id: int)
      modifies this
      ensures questions == MarkSubmitted(old(questions), id)
      ensures currentQuestion == old(currentQuestion)
    {
      questions := MarkSubmitted(questions, id);
    }

    method NextQuestion()
      modifies this
      ensures questions == old(questions)
      ensures currentQuestion == NextSelection(questions, old(currentQuestion))
    {
      if currentQuestion.None? {
        return;
      }
      var idx := FindIndex(questions, currentQuestion.value.questionId);
      if idx < |questions| - 1 {
        currentQuestion := Some(questions[idx + 1]);
      }
    }

    method PreviousQuestion()
      modifies this
      ensures questions == old(questions)
      ensures currentQuestion == PreviousSelection(questions, old(currentQuestion))
    {
      if currentQuestion.None? {
        return;
      }
      var idx := FindIndex(questions, currentQuestion.value.questionId);
      if idx > 0 {
        currentQuestion := Some(questions[idx - 1]);
      }
    }
  }
}
