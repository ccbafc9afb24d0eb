/**
 * The JQL search query built from a subscription's or a request's filters
 * (server.js `buildJQLQuery`; the same construction inline in api/get-tickets.js
 * with the project key quoted). A filter that is absent is the empty string:
 * both are falsy and take the same branch.
 */
module Jql {

  import opened Wrappers
  import opened Text

  const OrderClause := " ORDER BY created DESC"

  /** The labels of a label filter: its comma-separated pieces, trimmed, the empty ones dropped. */
  function Labels(filter: string): (ls: seq<string>)
    ensures forall i :: 0 <= i < |ls| ==> ls[i] != "" && ',' !in ls[i] && Trim(ls[i]) == ls[i]
  {
    var pieces := Split(filter, ',');
    var labels := Filter(NonEmpty, Map(Trim, pieces));
    forall i | 0 <= i < |labels|
      ensures labels[i] != "" && ',' !in labels[i] && Trim(labels[i]) == labels[i]
    {
      var j :| 0 <= j < |pieces| && Map(Trim, pieces)[j] == labels[i];
      TrimIdempotent(pieces[j]);
      TrimKeepsAbsent(pieces[j], ',');
    }
    labels
  }

  /** Trimming removes characters and adds none. */
  lemma TrimKeepsAbsent(s: string, c: char)
    requires c !in s
    ensures c !in Trim(s)
  {
    var r, k := Trim(s), |s| - |TrimStart(s)|;
    forall j | 0 <= j < |r| ensures r[j] != c {
      assert r[j] == s[k + j];
    }
  }

  /** A blank filter has no labels, so the outer truthiness test of the source never changes the result. */
  lemma {:induction false} BlankHasNoLabels(filter: string)
    requires IsBlank(filter)
    ensures Labels(filter) == []
  {
    BlankIffAllWhitespace(filter);
    assert ',' !in filter by {
      forall i | 0 <= i < |filter| ensures filter[i] != ',' {
        assert IsWhitespace(filter[i]);
      }
    }
    SplitWithoutSeparator(filter, ',');
    assert Map(Trim, [filter]) == [Trim(filter)];
  }

  /** A comma-free piece gives its trimmed text as a label, or nothing when that is empty. */
  lemma {:induction false} LabelsOfPiece(piece: string)
    requires ',' !in piece
    ensures Labels(piece) == if Trim(piece) == "" then [] else [Trim(piece)]
  {
    SplitWithoutSeparator(piece, ',');
    assert Map(Trim, [piece]) == [Trim(piece)];
  }

  lemma {:induction false} MapConcat<A, B>(f: A -> B, xs: seq<A>, ys: seq<A>)
    ensures Map(f, xs + ys) == Map(f, xs) + Map(f, ys)
  {
  }

  /** Labels keep the order of the filter: a comma splits the list of labels in two. */
  lemma {:induction false} LabelsAtComma(a: string, b: string)
    ensures Labels(a + "," + b) == Labels(a) + Labels(b)
  {
    SplitAtSeparator(a, ',', b);
    MapConcat(Trim, Split(a, ','), Split(b, ','));
    FilterConcat(NonEmpty, Map(Trim, Split(a, ',')), Map(Trim, Split(b, ',')));
  }

  /** Writing clean labels as a comma-separated filter gives back exactly those labels. */
  lemma {:induction false} LabelsOfJoin(ls: seq<string>)
    requires forall i :: 0 <= i < |ls| ==> ls[i] != "" && ',' !in ls[i] && Trim(ls[i]) == ls[i]
    ensures Labels(Join(ls, ",")) == ls
  {
    if |ls| > 0 {
      SplitJoin(ls, ',');
      assert Map(Trim, ls) == ls;
      FilterAllPass(NonEmpty, ls);
    }
  }

  /** One label's condition. */
  function Condition(name: string): string {
    "labels = \"" + name + "\""
  }

  /** The label conditions OR-joined. */
  function Conditions(labels: seq<string>): string {
    Join(Map(Condition, labels), " OR ")
  }

  /**
   * Labels are quoted but not escaped: a label holding `" OR labels = "` between two
   * names yields the very conditions of those two labels, so a single label can widen
   * the search.
   */
  lemma {:induction false} UnescapedQuote(a: string, b: string)
    ensures Condition(a + "\" OR labels = \"" + b) == Conditions([a, b])
  {
    var m := Map(Condition, [a, b]);
    assert m == [Condition(a), Condition(b)];
    assert m[1..] == [Condition(b)];
    assert Join(m, " OR ") == m[0] + " OR " + Join(m[1..], " OR ");
    assert Conditions([a, b]) == Condition(a) + " OR " + Condition(b);
    assert Condition(a + "\" OR labels = \"" + b)
        == "labels = \"" + a + "\"" + " OR " + "labels = \"" + b + "\"";
  }

  /**
   * The label clause: present exactly when some label survives, and then every
   * label's condition OR-joined in parentheses. A blank filter has no labels,
   * so the outer truthiness test never changes the result.
   */
  function LabelClause(filter: string): (c: string)
    ensures c != "" <==> Labels(filter) != []
    ensures c != "" ==> c == " AND (" + Conditions(Labels(filter)) + ")"
  {
    if NonBlank(filter) then
      var labels := Labels(filter);
      if |labels| > 0 then " AND (" + Conditions(labels) + ")" else ""
    else
      BlankHasNoLabels(filter);
      ""
  }

  const StatusPrefix := " AND status = \""
  const PriorityPrefix := " AND priority = \""

  /** The status clause: present exactly when the filter is not blank, quoting it as given, untrimmed. */
  function StatusClause(filter: string): (c: string)
    ensures c != "" <==> NonBlank(filter)
    ensures c != "" ==> |c| == |StatusPrefix| + |filter| + 1 && c[|StatusPrefix|..|c| - 1] == filter
    ensures c != "" ==> c[..|StatusPrefix|] == StatusPrefix && c[|c| - 1] == '"'
  {
    if NonBlank(filter) then StatusPrefix + filter + "\"" else ""
  }

  /** The priority clause: present exactly when the filter is not blank, quoting it as given, untrimmed. */
  function PriorityClause(filter: string): (c: string)
    ensures c != "" <==> NonBlank(filter)
    ensures c != "" ==> |c| == |PriorityPrefix| + |filter| + 1 && c[|PriorityPrefix|..|c| - 1] == filter
    ensures c != "" ==> c[..|PriorityPrefix|] == PriorityPrefix && c[|c| - 1] == '"'
  {
    if NonBlank(filter) then PriorityPrefix + filter + "\"" else ""
  }

  /** A query: the project clause, then the label, status and priority clauses, then the ordering. */
  function Query(project: string, labelFilter: string, statusFilter: string, priorityFilter: string): (q: string)
    ensures |q| >= |project| + |OrderClause|
    ensures q[..|project|] == project
    ensures q[|q| - |OrderClause|..] == OrderClause
  {
    var clauses := LabelClause(labelFilter) + StatusClause(statusFilter) + PriorityClause(priorityFilter);
    Affixes(project, clauses, OrderClause);
    project + clauses + OrderClause
  }

  /** A string put between two others keeps the first as prefix and the last as suffix. */
  lemma Affixes(p: string, m: string, o: string)
    ensures |p + m + o| >= |p| + |o|
    ensures (p + m + o)[..|p|] == p && (p + m + o)[|p + m + o| - |o|..] == o
  {
  }

  /** server.js `buildJQLQuery`: the project key unquoted. */
  function BuildJqlQuery(projectKey: string, labelFilter: string, statusFilter: string, priorityFilter: string): (q: string)
    ensures |q| >= |"project = " + projectKey| + |OrderClause|
    ensures q[..|"project = " + projectKey|] == "project = " + projectKey
    ensures q[|q| - |OrderClause|..] == OrderClause
  {
    Query("project = " + projectKey, labelFilter, statusFilter, priorityFilter)
  }

  const ConditionPrefix := "labels = \""

  /** Reads a label clause's conditions back into labels. */
  function ParseConditions(s: string): Option<seq<string>>
    decreases |s|
  {
    if |s| < |ConditionPrefix| || s[..|ConditionPrefix|] != ConditionPrefix then None
    else
      var body := s[|ConditionPrefix|..];
      match IndexOf(body, '"')
      case None => None
      case Some(k) =>
        var after := body[k + 1..];
        if after == "" then Some([body[..k]])
        else if |after| >= 4 && after[..4] == " OR " then
          match ParseConditions(after[4..])
          case None => None
          case Some(ls) => Some([body[..k]] + ls)
        else None
  }

  /** A condition is the prefix, the label and a closing quote. */
  lemma ConditionForm(l: string, tail: string)
    ensures Condition(l) + tail == ConditionPrefix + (l + ['"'] + tail)
  {
  }

  /** Parsing one condition, then whatever follows it. */
  lemma ParseStep(l: string, tail: string)
    requires '"' !in l
    ensures ParseConditions(Condition(l) + tail)
         == if tail == "" then Some([l])
            else if |tail| >= 4 && tail[..4] == " OR " then
              match ParseConditions(tail[4..])
              case None => None
              case Some(ls) => Some([l] + ls)
            else None
  {
    var s := Condition(l) + tail;
    ConditionForm(l, tail);
    assert s[..|ConditionPrefix|] == ConditionPrefix;
    var body := s[|ConditionPrefix|..];
    assert body == l + ['"'] + tail;
    IndexAfterPrefix(l, '"', tail);
    assert body[..|l|] == l;
    assert body[|l| + 1..] == tail;
  }

  /** Conditions of several labels: the first one, ` OR `, the rest. */
  lemma ConditionsCons(ls: seq<string>)
    requires |ls| >= 2
    ensures Conditions(ls) == Condition(ls[0]) + " OR " + Conditions(ls[1..])
  {
    assert Map(Condition, ls)[1..] == Map(Condition, ls[1..]);
  }

  /** One quote-free label is recovered from its condition. */
  lemma ConditionRoundTrip(l: string)
    requires '"' !in l
    ensures ParseConditions(Conditions([l])) == Some([l])
  {
    ParseStep(l, "");
    assert Conditions([l]) == Condition(l) + "";
  }

  /** Parsing a condition followed by ` OR ` and more: the label, then whatever the rest parse to. */
  lemma ParseStepOr(l: string, rest: string)
    requires '"' !in l
    ensures ParseConditions(Condition(l) + " OR " + rest)
         == match ParseConditions(rest)
            case None => None
            case Some(ls) => Some([l] + ls)
  {
    var tail := " OR " + rest;
    assert Condition(l) + " OR " + rest == Condition(l) + tail;
    ParseStep(l, tail);
    assert tail[..4] == " OR " && tail[4..] == rest;
  }

  /** Parsing several conditions: the first label, then whatever the rest parse to. */
  lemma ConditionsRoundTripStep(ls: seq<string>)
    requires |ls| >= 2 && '"' !in ls[0]
    requires ParseConditions(Conditions(ls[1..])) == Some(ls[1..])
    ensures ParseConditions(Conditions(ls)) == Some(ls)
  {
    ConditionsCons(ls);
    ParseStepOr(ls[0], Conditions(ls[1..]));
    assert [ls[0]] + ls[1..] == ls;
  }

  /** Labels free of double quotes are recovered from their conditions, in order. */
  lemma {:induction false} ConditionsRoundTrip(ls: seq<string>)
    requires |ls| >= 1
    requires forall i :: 0 <= i < |ls| ==> '"' !in ls[i]
    ensures ParseConditions(Conditions(ls)) == Some(ls)
  {
    if |ls| == 1 {
      ConditionRoundTrip(ls[0]);
      assert ls == [ls[0]];
    } else {
      ConditionsRoundTrip(ls[1..]);
      ConditionsRoundTripStep(ls);
    }
  }
}
