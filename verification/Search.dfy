/**
 * The timeline read of internal/persistence/timeline.go as a whole: the SQL text and its argument list
 * built up step by step, what the database answers to them, and the page made of the answer.
 */
module Search {
  import opened Timeline
  import opened Escaping

  datatype Arg = Number(n: nat) | Text(s: string)

  /** A condition added to the WHERE clause; `arg` is the number of its placeholder, from 1. */
  datatype Clause = IdBelow(arg: nat) | TextMatches(arg: nat)

  /** The statement selects by room ($1) and by every clause, newest first, up to placeholder `limit`. */
  datatype Statement = Statement(clauses: seq<Clause>, limit: nat, args: seq<Arg>)

  predicate IsNumber(args: seq<Arg>, k: nat) {
    1 <= k <= |args| && args[k - 1].Number?
  }

  predicate IsText(args: seq<Arg>, k: nat) {
    1 <= k <= |args| && args[k - 1].Text?
  }

  // ---- What the database makes of it ----

  /** The full-text operator: every token of the query is a phrase of the text. */
  predicate FullTextMatches(query: string, text: string) {
    Tokenize(query).Some? && AllPhrasesIn(Tokenize(query).value, text)
  }

  predicate Holds(args: seq<Arg>, c: Clause, id: nat, e: Entry) {
    match c
    case IdBelow(k) => IsNumber(args, k) && id < args[k - 1].n
    case TextMatches(k) => IsText(args, k) && e.kind.MessagePosted? && FullTextMatches(args[k - 1].s, e.text)
  }

  predicate Admits(st: Statement, id: nat, e: Entry) {
    && IsNumber(st.args, 1) && e.room == st.args[0].n
    && forall j :: 0 <= j < |st.clauses| ==> Holds(st.args, st.clauses[j], id, e)
  }

  /** The rows a statement returns; a placeholder that names no number is an error, and returns none. */
  ghost function Answer(st: Statement, t: Table): seq<nat> {
    if !IsNumber(st.args, st.limit) then []
    else FirstRows(Listing(set i | i in t && Admits(st, i, t[i])), st.args[st.limit - 1].n)
  }

  // ---- Building it ----

  /** A fragment is empty, for no filter, or has a term: it is trimmed and never blank. */
  predicate IsFragment(fragment: string) {
    fragment == "" || Fields(fragment) != []
  }

  lemma FullTextMeansTerms(fragment: string, text: string)
    ensures FullTextMatches(Joined(QuotedAll(Fields(fragment))), text) <==>
              forall t :: t in Fields(fragment) ==> Contains(text, t)
  {
    TermsAreFields(fragment, Fields(fragment));
    QueryMeansEveryTerm(fragment, Fields(fragment), text);
  }

  /** The rows the caller asked for. */
  ghost predicate Asked(room: nat, fragment: string, before: nat, id: nat, e: Entry) {
    Selects(room, Fields(fragment), e) && (before == 0 || id < before)
  }

  /** With at most two clauses, the conjunction spelled out. */
  lemma AdmitsByParts(st: Statement, id: nat, e: Entry)
    requires |st.clauses| <= 2
    ensures Admits(st, id, e) <==>
              && IsNumber(st.args, 1) && e.room == st.args[0].n
              && (|st.clauses| >= 1 ==> Holds(st.args, st.clauses[0], id, e))
              && (|st.clauses| == 2 ==> Holds(st.args, st.clauses[1], id, e))
  {
  }

  /**
   * Timeline's query builder: each placeholder is the length of the argument list at the moment its
   * argument was appended, and so names that argument in the finished statement.
   */
  method BuildStatement(room: nat, fragment: string, before: nat, limit: nat) returns (st: Statement)
    requires IsFragment(fragment)
    ensures IsNumber(st.args, st.limit) && st.args[st.limit - 1] == Number(limit + 1)
    ensures forall id, e :: Admits(st, id, e) <==> Asked(room, fragment, before, id, e)
  {
    var clauses: seq<Clause> := [];
    var args := [Number(room)];
    if before != 0 {
      args := args + [Number(before)];
      clauses := clauses + [IdBelow(|args|)];
    }
    if fragment != "" {
      var query := GroongaLiteralQuery(fragment);
      args := args + [Text(query)];
      clauses := clauses + [TextMatches(|args|)];
    }
    args := args + [Number(limit + 1)];
    st := Statement(clauses, |args|, args);
    forall id, e ensures Admits(st, id, e) <==> Asked(room, fragment, before, id, e) {
      assert Fields("") == [];
      FullTextMeansTerms(fragment, e.text);
      AdmitsByParts(st, id, e);
    }
  }

  /**
   * Timeline: against a database that answers statements on table t, the page of the room's matching
   * events below the cursor, newest first, and whether more follow.
   */
  method ReadTimeline(
    database: Statement -> seq<nat>, ghost t: Table, room: nat, fragment: string, before: nat, limit: nat)
    returns (page: Page)
    requires IsFragment(fragment)
    requires forall st :: database(st) == Answer(st, t)
    ensures page == PageOf(Matching(t, room, Fields(fragment)), before, limit)
  {
    var st := BuildStatement(room, fragment, before, limit);
    assert (set i | i in t && Admits(st, i, t[i])) == Below(Matching(t, room, Fields(fragment)), before);
    page := FetchPage(database(st), limit);
  }
}
