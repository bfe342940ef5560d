/** The interview listing returned by `GET /api/interviews`, shared by the
    dashboard, the scheduling form and the interview cards. */
module Catalog {
  import opened Collections

  /** The interview lengths offered by both scheduling dialogs. */
  const Durations := ["3 min", "5 min"]

  /** One entry of the listing's `data` array. */
  datatype InterviewSummary = InterviewSummary(
    id: string,
    title: string,
    description: string,
    interviewType: string,
    techStack: seq<string>)

  /** `interviewData.map((i) => i.title)` */
  function Titles(data: seq<InterviewSummary>): (titles: seq<string>)
    ensures |titles| == |data|
    ensures forall k :: 0 <= k < |data| ==> titles[k] == data[k].title
  {
    seq(|data|, k requires 0 <= k < |data| => data[k].title)
  }

  /** `[...new Set(interviewData.map((i) => i.title))]`: the role options of
      the scheduling form. No title is offered twice, a string is offered iff
      some entry has it as its title, and titles keep the order in which they
      first appear in the listing. */
  function RoleOptions(data: seq<InterviewSummary>): (roles: seq<string>)
    ensures NoDuplicates(roles)
    ensures forall t :: t in roles <==> exists k :: 0 <= k < |data| && data[k].title == t
    ensures forall t :: t in roles <==> t in Titles(data)
    ensures forall i, j :: 0 <= i < j < |roles| ==>
      FirstIndex(Titles(data), roles[i]) < FirstIndex(Titles(data), roles[j])
  {
    var titles := Titles(data);
    var roles := Distinct(titles);
    assert forall t :: t in titles <==> exists k :: 0 <= k < |data| && data[k].title == t by {
      forall t | t in titles ensures exists k :: 0 <= k < |data| && data[k].title == t {
        var k :| 0 <= k < |titles| && titles[k] == t;
        assert data[k].title == t;
      }
    }
    roles
  }

  /** When no two entries share a title, the options are all the titles in
      listing order. */
  lemma RoleOptionsOfDistinctTitles(data: seq<InterviewSummary>)
    requires NoDuplicates(Titles(data))
    ensures RoleOptions(data) == Titles(data)
  {
    DistinctOfNoDuplicates(Titles(data));
  }
}
