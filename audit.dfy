/** The audit-log page: the action colour table and its first-match
    lookup, the search and entity filters, the stat counters and the
    truncated id columns. An absent `user_id` or `entity_id` is "". */
module Audit {
  import opened Seqs
  import opened Text

  datatype AuditLog = AuditLog(id: string, user_id: string, action: string, entity_type: string, entity_id: string, created_at: string)

  /** The colour table, in the order its entries are tried. */
  const ActionKeys: seq<string> := ["create", "update", "delete", "login", "logout"]
  const ActionColors: seq<string> := [
    "bg-emerald-500/20 text-emerald-400",
    "bg-blue-500/20 text-blue-400",
    "bg-rose-500/20 text-rose-400",
    "bg-amber-500/20 text-amber-400",
    "bg-slate-500/20 text-slate-400"
  ]
  const DefaultColor := "bg-slate-500/20 text-slate-400"

  /** `getActionColor`: the colour of the first key, in table order, that
      occurs in the lower-cased action; the slate default when none does. */
  method GetActionColor(action: string) returns (color: string)
    ensures var lower := ToLower(action);
      (exists k :: 0 <= k < |ActionKeys| && Contains(lower, ActionKeys[k]) && color == ActionColors[k]
        && forall j :: 0 <= j < k ==> !Contains(lower, ActionKeys[j]))
      || ((forall k :: 0 <= k < |ActionKeys| ==> !Contains(lower, ActionKeys[k])) && color == DefaultColor)
  {
    var lower := ToLower(action);
    var i := 0;
    while i < |ActionKeys|
      invariant 0 <= i <= |ActionKeys|
      invariant forall j :: 0 <= j < i ==> !Contains(lower, ActionKeys[j])
    {
      if Contains(lower, ActionKeys[i]) {
        return ActionColors[i];
      }
      i := i + 1;
    }
    return DefaultColor;
  }

  /** The search box and the entity filter (None is 'all'). */
  predicate LogMatches(log: AuditLog, searchTerm: string, entityFilter: Option<string>) {
    && (ContainsIgnoreCase(log.id, searchTerm) || ContainsIgnoreCase(log.user_id, searchTerm)
        || ContainsIgnoreCase(log.entity_type, searchTerm) || ContainsIgnoreCase(log.action, searchTerm))
    && (entityFilter.None? || log.entity_type == entityFilter.value)
  }

  function FilteredLogs(logs: seq<AuditLog>, searchTerm: string, entityFilter: Option<string>): (r: seq<AuditLog>)
    ensures forall i :: 0 <= i < |r| ==> r[i] in logs && LogMatches(r[i], searchTerm, entityFilter)
    ensures forall i :: 0 <= i < |logs| && LogMatches(logs[i], searchTerm, entityFilter) ==> logs[i] in r
  {
    Filter(logs, (log: AuditLog) => LogMatches(log, searchTerm, entityFilter))
  }

  /** With no search term and 'all' entities every log is listed, in order. */
  lemma UnfilteredListsAll(logs: seq<AuditLog>)
    ensures FilteredLogs(logs, "", None) == logs
  {
    forall i | 0 <= i < |logs| ensures LogMatches(logs[i], "", None) {
      ContainsEmpty(ToLower(logs[i].id));
    }
    FilterAll(logs, (log: AuditLog) => LogMatches(log, "", None));
  }

  /** "Today's activity": logs whose timestamp starts with today's date. */
  function TodaysActivity(logs: seq<AuditLog>, today: string): (n: nat)
    ensures n <= |logs|
    ensures n == 0 <==> forall i :: 0 <= i < |logs| ==> !StartsWith(logs[i].created_at, today)
  {
    Count(logs, (log: AuditLog) => StartsWith(log.created_at, today))
  }

  /** The distinct non-empty user ids among the logs. */
  function UserIds(logs: seq<AuditLog>): (r: set<string>)
    ensures |r| <= |logs|
    ensures "" !in r
    ensures forall i :: 0 <= i < |logs| && logs[i].user_id != "" ==> logs[i].user_id in r
    ensures forall u :: u in r ==> exists i :: 0 <= i < |logs| && logs[i].user_id == u
    decreases |logs|
  {
    if logs == [] then {}
    else
      var rest := UserIds(logs[1..]);
      assert forall i :: 1 <= i < |logs| ==> logs[i] == logs[1..][i - 1];
      if logs[0].user_id == "" then rest else rest + {logs[0].user_id}
  }

  /** "Unique users": how many distinct users appear. */
  function UniqueUsers(logs: seq<AuditLog>): (n: nat)
    ensures n <= |logs|
  {
    |UserIds(logs)|
  }

  /** Logs all written by one user count that user once. */
  lemma {:induction false} SingleUser(logs: seq<AuditLog>, user: string)
    requires logs != [] && user != ""
    requires forall i :: 0 <= i < |logs| ==> logs[i].user_id == user
    ensures UniqueUsers(logs) == 1
  {
    assert UserIds(logs) == {user} by {
      assert user in UserIds(logs);
      forall u | u in UserIds(logs) ensures u == user {
        var i :| 0 <= i < |logs| && logs[i].user_id == u;
      }
    }
  }

  /** The user column: the first 8 characters of the user id, or 'System'. */
  function UserColumn(log: AuditLog): (r: string)
    ensures log.user_id == "" ==> r == "System"
    ensures log.user_id != "" ==> StartsWith(log.user_id, r) && |r| == if |log.user_id| <= 8 then |log.user_id| else 8
  {
    if log.user_id == "" then "System" else Take(log.user_id, 8)
  }

  /** The entity column: the first 8 characters of the entity id, or '-'. */
  function EntityColumn(log: AuditLog): (r: string)
    ensures log.entity_id == "" ==> r == "-"
    ensures log.entity_id != "" ==> StartsWith(log.entity_id, r) && |r| == if |log.entity_id| <= 8 then |log.entity_id| else 8
  {
    if log.entity_id == "" then "-" else Take(log.entity_id, 8)
  }
}
