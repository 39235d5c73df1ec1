/**
 * The qualifying filter of the Jira side: from the result of the active-issue
 * search and the per-subtask fetches, keep the issues whose subtasks are
 * assigned to more than one distinct person, and attach that set of people
 * (their e-mail addresses) as the issue's collaborators.
 *
 * The network calls are inputs: the search either raised or produced a
 * sequence of issues, and every subtask link carries the outcome of fetching
 * that subtask (raised, or fetched with or without an assignee).
 */
module JiraClient {
  import opened Wrappers
  import opened Seqs

  /** Outcome of `jira.issue(subtask_link.key, fields="assignee")`. */
  datatype SubtaskFetch = FetchRaised | Fetched(assigneeEmail: Option<string>)

  datatype SubtaskLink = SubtaskLink(key: string, fetch: SubtaskFetch)

  /** An issue as the search returns it: key, summary and its subtask links. */
  datatype SearchIssue = SearchIssue(key: string, summary: string, subtasks: seq<SubtaskLink>)

  /** Outcome of `jira.search_issues(...)`. */
  datatype SearchResult = SearchRaised | Found(issues: seq<SearchIssue>)

  /** A qualifying issue with the `collaborators` list attached. */
  datatype Issue = Issue(key: string, summary: string, collaborators: seq<string>)

  /** The e-mail a subtask contributes: only a fetched subtask with an assignee has one. */
  function AssigneeOf(t: SubtaskLink): Option<string>
  {
    if t.fetch.Fetched? then t.fetch.assigneeEmail else None
  }

  /** The distinct assignee e-mails over a list of subtasks. */
  function Assignees(subtasks: seq<SubtaskLink>): set<string>
  {
    if subtasks == [] then {}
    else
      var last := AssigneeOf(subtasks[|subtasks| - 1]);
      Assignees(subtasks[..|subtasks| - 1]) + (if last.Some? then {last.value} else {})
  }

  /** The qualifying rule: more than one distinct assignee. */
  predicate IsCollaborative(issue: SearchIssue)
  {
    |Assignees(issue.subtasks)| > 1
  }

  /** The search results that qualify, in search order. */
  function Qualifying(issues: seq<SearchIssue>): seq<SearchIssue>
  {
    Filter(issues, IsCollaborative)
  }

  /** `out` is `src` with its collaborators attached: the assignee set as a duplicate-free list. */
  ghost predicate Annotates(out: Issue, src: SearchIssue)
  {
    && out.key == src.key
    && out.summary == src.summary
    && NoDups(out.collaborators)
    && |out.collaborators| == |Assignees(src.subtasks)|
    && (forall e :: e in out.collaborators <==> e in Assignees(src.subtasks))
  }

  ghost predicate AnnotatesAll(r: seq<Issue>, q: seq<SearchIssue>)
  {
    |r| == |q| && forall i :: 0 <= i < |r| ==> Annotates(r[i], q[i])
  }

  /**
   * `list(unique_assignees)`: the members of the set, each once, in an order
   * the model leaves open (Python's set iteration order).
   */
  method ListOf(s: set<string>) returns (xs: seq<string>)
    ensures NoDups(xs) && |xs| == |s|
    ensures forall e :: e in xs <==> e in s
  {
    xs := [];
    var rest := s;
    while rest != {}
      invariant rest <= s
      invariant NoDups(xs)
      invariant forall e :: e in xs <==> e in s && e !in rest
      invariant |xs| + |rest| == |s|
      decreases |rest|
    {
      var e :| e in rest;
      xs := xs + [e];
      rest := rest - {e};
    }
  }

  /** The inner loop of the filter: the distinct assignees of one issue's subtasks. */
  method CollectAssignees(subtasks: seq<SubtaskLink>) returns (unique: set<string>)
    ensures unique == Assignees(subtasks)
  {
    unique := {};
    var j := 0;
    while j < |subtasks|
      invariant 0 <= j <= |subtasks|
      invariant unique == Assignees(subtasks[..j])
    {
      assert subtasks[..j + 1][..j] == subtasks[..j];
      match subtasks[j].fetch {
        case FetchRaised =>
        case Fetched(assignee) =>
          if assignee.Some? {
            unique := unique + {assignee.value};
          }
      }
      j := j + 1;
    }
    assert subtasks[..j] == subtasks;
  }

  lemma QualifyingStep(issues: seq<SearchIssue>, i: nat)
    requires i < |issues|
    ensures Qualifying(issues[..i + 1])
         == Qualifying(issues[..i]) + (if IsCollaborative(issues[i]) then [issues[i]] else [])
  {
    assert issues[..i + 1][..i] == issues[..i];
  }

  lemma AnnotatesAllExtend(r: seq<Issue>, q: seq<SearchIssue>, out: Issue, src: SearchIssue)
    requires AnnotatesAll(r, q) && Annotates(out, src)
    ensures AnnotatesAll(r + [out], q + [src])
  {
  }

  /**
   * `get_collaborative_active_issues`: a failed search yields the empty
   * list; otherwise each issue with subtasks has its subtasks' assignees
   * collected (failed fetches and unassigned subtasks contribute nothing)
   * and is kept when there are at least two of them.
   */
  method GetCollaborativeActiveIssues(search: SearchResult) returns (r: seq<Issue>)
    ensures search.SearchRaised? ==> r == []
    ensures search.Found? ==> AnnotatesAll(r, Qualifying(search.issues))
  {
    if search.SearchRaised? {
      return [];
    }
    var issues := search.issues;
    r := [];
    var i := 0;
    while i < |issues|
      invariant 0 <= i <= |issues|
      invariant AnnotatesAll(r, Qualifying(issues[..i]))
    {
      var issue := issues[i];
      QualifyingStep(issues, i);
      if issue.subtasks == [] {
        assert !IsCollaborative(issue);
        i := i + 1;
        continue;
      }
      var unique := CollectAssignees(issue.subtasks);
      assert IsCollaborative(issue) <==> |unique| > 1;
      if |unique| > 1 {
        var collaborators := ListOf(unique);
        var out := Issue(issue.key, issue.summary, collaborators);
        assert Annotates(out, issue);
        AnnotatesAllExtend(r, Qualifying(issues[..i]), out, issue);
        r := r + [out];
      }
      i := i + 1;
    }
    assert issues[..i] == issues;
  }

  /** The collaborator set is exactly the e-mails of the subtasks fetched with an assignee. */
  lemma {:induction false} AssigneesExactly(subtasks: seq<SubtaskLink>, e: string)
    ensures e in Assignees(subtasks)
        <==> exists i :: 0 <= i < |subtasks| && AssigneeOf(subtasks[i]) == Some(e)
  {
    if subtasks != [] {
      var n := |subtasks| - 1;
      var init := subtasks[..n];
      AssigneesExactly(init, e);
      if e in Assignees(init) {
        var i :| 0 <= i < |init| && AssigneeOf(init[i]) == Some(e);
        assert AssigneeOf(subtasks[i]) == Some(e);
      }
      if exists i :: 0 <= i < |subtasks| && AssigneeOf(subtasks[i]) == Some(e) {
        var i :| 0 <= i < |subtasks| && AssigneeOf(subtasks[i]) == Some(e);
        if i < n {
          assert AssigneeOf(init[i]) == Some(e);
        }
      }
    }
  }

  /** Subtasks are collected independently of one another. */
  lemma {:induction false} AssigneesConcat(a: seq<SubtaskLink>, b: seq<SubtaskLink>)
    ensures Assignees(a + b) == Assignees(a) + Assignees(b)
    decreases |b|
  {
    if b == [] {
      assert a + b == a;
    } else {
      var n := |b| - 1;
      AssigneesConcat(a, b[..n]);
      assert (a + b)[..|a + b| - 1] == a + b[..n];
      assert (a + b)[|a + b| - 1] == b[n];
    }
  }

  /**
   * A subtask whose fetch raised, or that has no assignee, changes nothing:
   * the issue is judged on its other subtasks as if it were absent.
   */
  lemma IgnoredSubtask(a: seq<SubtaskLink>, t: SubtaskLink, b: seq<SubtaskLink>)
    requires t.fetch.FetchRaised? || t.fetch.assigneeEmail.None?
    ensures Assignees(a + [t] + b) == Assignees(a + b)
  {
    AssigneesConcat(a + [t], b);
    AssigneesConcat(a, [t]);
    AssigneesConcat(a, b);
    assert [t][..0] == [];
  }

  /** An issue is returned if and only if its subtasks have more than one distinct assignee. */
  lemma QualifyingExactly(issues: seq<SearchIssue>, x: SearchIssue)
    ensures x in Qualifying(issues) <==> x in issues && |Assignees(x.subtasks)| > 1
  {
    FilterMembership(issues, IsCollaborative, x);
  }

  /** An issue without subtasks is never returned. */
  lemma NoneWithoutSubtasks(issues: seq<SearchIssue>, x: SearchIssue)
    requires x.subtasks == []
    ensures x !in Qualifying(issues)
  {
    QualifyingExactly(issues, x);
  }

  /** The result keeps the search order, and each issue is decided on its own. */
  lemma QualifyingOrder(a: seq<SearchIssue>, b: seq<SearchIssue>)
    ensures IsSubseq(Qualifying(a), a)
    ensures Qualifying(a + b) == Qualifying(a) + Qualifying(b)
  {
    FilterIsSubseq(a, IsCollaborative);
    FilterConcat(a, b, IsCollaborative);
  }

  /** Every returned issue carries at least two collaborators, each from one of its subtasks. */
  lemma AtLeastTwoCollaborators(r: seq<Issue>, issues: seq<SearchIssue>, k: nat)
    requires AnnotatesAll(r, Qualifying(issues)) && k < |r|
    ensures |r[k].collaborators| >= 2
    ensures exists x :: x in issues && x.key == r[k].key && x.summary == r[k].summary
  {
    var q := Qualifying(issues);
    assert q[k] in q;
    QualifyingExactly(issues, q[k]);
  }
}
