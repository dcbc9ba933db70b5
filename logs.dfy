/**
 * The activity log: the document `create_log` builds from what the front end
 * sends (its time in UTC, its severity, its `actor.entity.event` action name
 * and the case-folded alias), and the filter `list_logs` queries with.
 */
module Logs {
  import opened Wrappers
  import opened Text
  import opened Calendar

  const ACTORS: set<string> := {"admin", "user", "sistema"}
  const ENTITIES: set<string> := {"recipe", "user", "encargado", "work_order", "product"}
  const EVENTS: set<string> := {"create", "update", "modify", "disable", "delete", "enable"}
  const SEVERITIES: set<string> := {"INFO", "WARN"}

  /** A `datetime` as received: naive wall-clock seconds, or wall-clock seconds at a UTC offset. */
  datatype Stamp = Naive(wall: int) | Aware(wall: int, offset: int)

  /** `_ensure_timezone`: no time means now; a naive time is read as UTC; an aware one is converted to UTC. */
  function EnsureTimezone(dt: Option<Stamp>, now: Instant): (r: Instant)
    ensures dt.None? ==> r == now
    ensures dt.Some? && dt.value.Naive? ==> r == dt.value.wall
    ensures dt.Some? && dt.value.Aware? ==> r + dt.value.offset == dt.value.wall
  {
    match dt
    case None => now
    case Some(Naive(w)) => w
    case Some(Aware(w, off)) => w - off
  }

  /** One instant written at any UTC offset is stored as the same instant, and a naive time is its UTC reading. */
  lemma SameInstantAnyOffset(t: Instant, off1: int, off2: int, now: Instant)
    ensures EnsureTimezone(Some(Aware(t + off1, off1)), now) == EnsureTimezone(Some(Aware(t + off2, off2)), now)
    ensures EnsureTimezone(Some(Aware(t, 0)), now) == EnsureTimezone(Some(Naive(t)), now) == t
  {
  }

  /** `_determine_severity`: an explicit INFO or WARN is kept; otherwise disabling and deleting warn. */
  function DetermineSeverity(explicit: Option<string>, event: string): (r: string)
    ensures r in SEVERITIES
    ensures explicit.Some? && explicit.value in SEVERITIES ==> r == explicit.value
    ensures (explicit.None? || explicit.value !in SEVERITIES) ==> (r == "WARN" <==> event in {"disable", "delete"})
  {
    if explicit.Some? && explicit.value in SEVERITIES then explicit.value
    else if event in {"disable", "delete"} then "WARN"
    else "INFO"
  }

  /** The `accion` name: `actor.entity.event`. */
  function Accion(actor: string, entity: string, event: string): string {
    actor + "." + entity + "." + event
  }

  predicate NoDot(s: string) {
    forall i :: 0 <= i < |s| ==> s[i] != '.'
  }

  /** A dotted name splits uniquely at its first dot when the part before it has none. */
  lemma SplitAtFirstDot(a1: string, r1: string, a2: string, r2: string)
    requires NoDot(a1) && NoDot(a2)
    requires a1 + "." + r1 == a2 + "." + r2
    ensures a1 == a2 && r1 == r2
  {
    var s := a1 + "." + r1;
    var t := a2 + "." + r2;
    assert forall k :: 0 <= k < |a1| ==> s[k] == a1[k] && s[k] != '.';
    assert forall k :: 0 <= k < |a2| ==> t[k] == a2[k] && t[k] != '.';
    assert s[|a1|] == '.' && t[|a2|] == '.';
    assert |a1| == |a2|;
    assert a1 == s[..|a1|] && a2 == s[..|a2|];
    assert r1 == s[|a1| + 1..] && r2 == (a2 + "." + r2)[|a2| + 1..];
  }

  lemma NamesHaveNoDot()
    ensures forall s :: s in ACTORS || s in ENTITIES ==> NoDot(s)
  {
    assert NoDot("admin") && NoDot("user") && NoDot("sistema");
    assert NoDot("recipe") && NoDot("encargado") && NoDot("work_order") && NoDot("product");
  }

  /** Distinct (actor, entity, event) triples from the schema's literals never share an action name. */
  lemma AccionInjective(a1: string, e1: string, v1: string, a2: string, e2: string, v2: string)
    requires a1 in ACTORS && a2 in ACTORS && e1 in ENTITIES && e2 in ENTITIES
    requires Accion(a1, e1, v1) == Accion(a2, e2, v2)
    ensures a1 == a2 && e1 == e2 && v1 == v2
  {
    NamesHaveNoDot();
    assert Accion(a1, e1, v1) == a1 + "." + (e1 + "." + v1);
    assert Accion(a2, e2, v2) == a2 + "." + (e2 + "." + v2);
    SplitAtFirstDot(a1, e1 + "." + v1, a2, e2 + "." + v2);
    SplitAtFirstDot(e1, v1, e2, v2);
  }

  /** `LogCreateIn`; its free-form payload is not modelled. */
  datatype LogIn = LogIn(actor: string, entity: string, event: string, userAlias: string, severity: Option<string>, loggedAt: Option<Stamp>)

  /** A stored log. */
  datatype LogEntry = LogEntry(
    loggedAt: Instant,
    severity: string,
    accion: string,
    usuario: string,
    userAliasCi: string,
    actor: string,
    entity: string,
    event: string)

  /** The document `create_log` inserts. */
  function NewLog(p: LogIn, now: Instant): LogEntry {
    var alias := Strip(p.userAlias);
    LogEntry(EnsureTimezone(p.loggedAt, now), DetermineSeverity(p.severity, p.event), Accion(p.actor, p.entity, p.event),
             alias, Lower(alias), p.actor, p.entity, p.event)
  }

  /**
   * The stored log: its user is the stripped alias and its key that alias
   * lower-cased, its severity is INFO or WARN, and its action name is the one
   * its own actor, entity and event spell.
   */
  lemma NewLogFields(p: LogIn, now: Instant)
    ensures NewLog(p, now).usuario == Strip(p.userAlias)
    ensures NewLog(p, now).userAliasCi == Lower(NewLog(p, now).usuario)
    ensures NewLog(p, now).severity in SEVERITIES
    ensures NewLog(p, now).accion == Accion(NewLog(p, now).actor, NewLog(p, now).entity, NewLog(p, now).event)
    ensures p.loggedAt.None? ==> NewLog(p, now).loggedAt == now
  {
  }

  /** `LogsListFilters`. */
  datatype LogFilters = LogFilters(q: Option<string>, severity: Option<string>, date: Option<Day>)

  /**
   * `_build_filters` applied to one log: a non-empty `q` must occur in the actor
   * ignoring case, a non-empty severity must match, and a date keeps the
   * half-open UTC day from its midnight. The schema describes `q` as a filter on the
   * user's alias, but the query built matches the `actor` field, as modelled here.
   */
  predicate Matches(l: LogEntry, f: LogFilters) {
    (f.q.Some? && f.q.value != [] ==> Contains(Lower(l.actor), Lower(f.q.value)))
    && (f.severity.Some? && f.severity.value != [] ==> l.severity == f.severity.value)
    && (f.date.Some? ==> DayStart(f.date.value) <= l.loggedAt < DayStart(f.date.value) + SecondsPerDay)
  }

  /** The date filter keeps exactly the logs written on that UTC day. */
  lemma DateFilterIsDay(l: LogEntry, d: Day)
    ensures Matches(l, LogFilters(None, None, Some(d))) <==> DayOf(l.loggedAt) == d
  {
    DayWindow(l.loggedAt, d);
  }

  /** Empty filters keep every log. */
  lemma EmptyFiltersKeepAll(l: LogEntry)
    ensures Matches(l, LogFilters(None, None, None)) && Matches(l, LogFilters(Some(""), Some(""), None))
  {
  }

  /** A log matches its own actor, whatever the case of the query. */
  lemma ActorMatchesItself(l: LogEntry)
    ensures Matches(l, LogFilters(Some(l.actor), None, None))
  {
    ContainsAt(Lower(l.actor), Lower(l.actor), 0);
  }

  /** The logs collection. */
  class LogStore {
    var logs: seq<LogEntry>

    constructor ()
      ensures logs == []
    {
      logs := [];
    }

    /** `create_log`: appends the built document and returns it. */
    method CreateLog(p: LogIn, now: Instant) returns (doc: LogEntry)
      modifies this
      ensures doc == NewLog(p, now)
      ensures logs == old(logs) + [doc]
    {
      var aliasClean := Strip(p.userAlias);
      var loggedAt := EnsureTimezone(p.loggedAt, now);
      var severity := DetermineSeverity(p.severity, p.event);
      var accion := Accion(p.actor, p.entity, p.event);
      doc := LogEntry(loggedAt, severity, accion, aliasClean, Lower(aliasClean), p.actor, p.entity, p.event);
      logs := logs + [doc];
    }
  }
}
