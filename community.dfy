/**
 * The tenant community page: peer complaints with an append-only message
 * thread, their open / escalated / resolved lifecycle, and the neighbour list.
 * Store writes are parameters saying whether they succeeded.
 */
module Community {
  import opened Wrappers
  import opened Text
  import opened Sequences

  datatype Status = Open | Escalated | Resolved

  /** A row of `tenant_complaints`; `escalatedAt` is the timestamp written on escalation. */
  datatype Complaint = Complaint(
    id: string,
    complainantId: string,
    respondentUnitId: string,
    propertyId: string,
    category: string,
    description: string,
    status: Status,
    escalatedAt: Option<int>)

  /** A row of `complaint_messages`. */
  datatype Message = Message(complaintId: string, senderId: string, content: string)

  /** The "new complaint" form. */
  datatype ComplaintForm = ComplaintForm(unitId: string, category: string, description: string)

  const BlankForm := ComplaintForm("", "Noise", "")

  /** The categories the form offers. */
  const Categories := ["Noise", "Cleanliness", "Parking", "Pet Issue", "Other"]

  function SeedText(category: string, description: string): string {
    "Opened resolution regarding " + category + ": " + description
  }

  const EscalationNote := "\U{26A0}\U{FE0F} Issue escalated to Landlord."
  const ResolutionNote := "\U{2705} Issue marked as resolved."

  // ------------------------------------------------------------- lifecycle

  /** The "Mark Resolved" button is shown for any complaint not yet resolved. */
  predicate ResolveOffered(s: Status) {
    s != Resolved
  }

  /** The "Escalate to Landlord" button is shown only for an open complaint. */
  predicate EscalateOffered(s: Status) {
    s == Open
  }

  /** A click on one of the two action buttons, with the user's answer and the store's outcome. */
  datatype Action = EscalateClick(confirmed: bool, updateOk: bool) | ResolveClick(updateOk: bool)

  /** The status after a click: only a shown button acts, and only a confirmed, successful update changes the status. */
  function Step(s: Status, a: Action): Status {
    match a
    case EscalateClick(confirmed, ok) => if EscalateOffered(s) && confirmed && ok then Escalated else s
    case ResolveClick(ok) => if ResolveOffered(s) && ok then Resolved else s
  }

  /** The status after a series of clicks. */
  function Run(s: Status, actions: seq<Action>): Status
    decreases |actions|
  {
    if actions == [] then s else Run(Step(s, actions[0]), actions[1..])
  }

  /** Open < Escalated < Resolved. */
  function Rank(s: Status): nat {
    match s
    case Open => 0
    case Escalated => 1
    case Resolved => 2
  }

  /** Each click either leaves the status alone or takes one of the edges open→escalated, open→resolved, escalated→resolved. */
  lemma StepEdges(s: Status, a: Action)
    ensures Step(s, a) == s
      || (s == Open && Step(s, a) == Escalated)
      || (s == Open && Step(s, a) == Resolved)
      || (s == Escalated && Step(s, a) == Resolved)
  {
  }

  /** Statuses only move forward. */
  lemma {:induction false} RunNeverGoesBack(s: Status, actions: seq<Action>)
    ensures Rank(Run(s, actions)) >= Rank(s)
    decreases |actions|
  {
    if actions != [] {
      StepEdges(s, actions[0]);
      RunNeverGoesBack(Step(s, actions[0]), actions[1..]);
    }
  }

  /** No series of clicks leads back to `open`. */
  lemma {:induction false} NeverReopens(s: Status, actions: seq<Action>)
    requires s != Open
    ensures Run(s, actions) != Open
  {
    RunNeverGoesBack(s, actions);
  }

  /** A resolved complaint stays resolved. */
  lemma {:induction false} ResolvedIsFinal(actions: seq<Action>)
    ensures Run(Resolved, actions) == Resolved
  {
    RunNeverGoesBack(Resolved, actions);
  }

  /** Escalation happens only from `open`; both open→resolved and escalated→resolved happen; escalating a resolved complaint does nothing. */
  lemma Transitions()
    ensures forall s, a :: Step(s, a) == Escalated && s != Escalated ==> s == Open
    ensures Step(Open, ResolveClick(true)) == Resolved && Step(Escalated, ResolveClick(true)) == Resolved
    ensures Step(Open, EscalateClick(true, true)) == Escalated
    ensures Step(Resolved, EscalateClick(true, true)) == Resolved
  {
  }

  // ---------------------------------------------------------------- threads

  /** The messages of one complaint, oldest first: what `fetchMessages` loads. */
  function Thread(log: seq<Message>, id: string): (t: seq<Message>)
    ensures |t| <= |log|
    ensures forall m :: m in t <==> m in log && m.complaintId == id
  {
    if log == [] then []
    else (if log[0].complaintId == id then [log[0]] else []) + Thread(log[1..], id)
  }

  /** A thread keeps the log's order. */
  lemma {:induction false} ThreadKeepsOrder(log: seq<Message>, id: string)
    ensures IsSubsequence(Thread(log, id), log)
    decreases |log|
  {
    if log != [] {
      ThreadKeepsOrder(log[1..], id);
      var t := Thread(log, id);
      if log[0].complaintId == id {
        assert t[0] == log[0] && t[1..] == Thread(log[1..], id);
      } else {
        assert t == Thread(log[1..], id);
      }
    }
  }

  /** A thread holds every message of its complaint as often as the log does, and nothing else. */
  lemma {:induction false} ThreadCounts(log: seq<Message>, id: string, m: Message)
    ensures multiset(Thread(log, id))[m] == if m.complaintId == id then multiset(log)[m] else 0
    decreases |log|
  {
    if log != [] {
      assert log == [log[0]] + log[1..];
      ThreadCounts(log[1..], id, m);
    }
  }

  /** Appending to the log appends to the thread it belongs to and leaves every other thread as it was. */
  lemma {:induction false} ThreadAppend(log: seq<Message>, m: Message, id: string)
    ensures Thread(log + [m], id) == Thread(log, id) + (if m.complaintId == id then [m] else [])
    decreases |log|
  {
    if log == [] {
      assert Thread([m], id) == (if m.complaintId == id then [m] else []) + Thread([], id);
    } else {
      assert (log + [m])[0] == log[0];
      assert (log + [m])[1..] == log[1..] + [m];
      ThreadAppend(log[1..], m, id);
    }
  }

  /** Updates the status of the row with the given id, and its escalation time when one is given. */
  function WithStatus(rows: seq<Complaint>, id: string, status: Status, stamp: Option<int>): (r: seq<Complaint>)
    ensures |r| == |rows|
    ensures forall i :: 0 <= i < |rows| ==>
      r[i] == if rows[i].id == id
              then rows[i].(status := status, escalatedAt := if stamp.Some? then stamp else rows[i].escalatedAt)
              else rows[i]
  {
    if rows == [] then []
    else
      var head := rows[0];
      [if head.id == id then head.(status := status, escalatedAt := if stamp.Some? then stamp else head.escalatedAt) else head]
      + WithStatus(rows[1..], id, status, stamp)
  }

  // ------------------------------------------------------------- neighbours

  /** A lease row of the neighbour query with the tenant's profile, if any. */
  datatype NeighborLease = NeighborLease(unitNumber: string, profileId: Option<string>, fullName: Option<string>, avatarUrl: Option<string>)

  datatype Neighbor = Neighbor(unitNumber: string, tenantName: string, tenantId: string, tenantAvatar: Option<string>)

  /** The lease rows that carry a tenant id, in their order. */
  function WithIds(rows: seq<NeighborLease>): (r: seq<NeighborLease>)
    ensures |r| <= |rows|
  {
    if rows == [] then []
    else (if rows[0].profileId.Some? && rows[0].profileId.value != [] then [rows[0]] else []) + WithIds(rows[1..])
  }

  /** The card shown for a lease row with a tenant id; a missing name reads "Unknown". */
  function Format(l: NeighborLease): (n: Neighbor)
    requires l.profileId.Some?
  {
    Neighbor(l.unitNumber, OrElse(l.fullName, "Unknown"), l.profileId.value, l.avatarUrl)
  }

  /** Rows without a tenant id are dropped; every other row becomes its card, in order. */
  function FormatNeighbors(rows: seq<NeighborLease>): (r: seq<Neighbor>)
    ensures |r| == |WithIds(rows)|
    ensures forall i :: 0 <= i < |r| ==>
      && WithIds(rows)[i] in rows && WithIds(rows)[i].profileId.Some? && WithIds(rows)[i].profileId.value != []
      && r[i] == Neighbor(WithIds(rows)[i].unitNumber, OrElse(WithIds(rows)[i].fullName, "Unknown"),
                          WithIds(rows)[i].profileId.value, WithIds(rows)[i].avatarUrl)
    ensures forall n :: n in r ==> n.tenantId != [] && n.tenantName != []
    ensures (forall l :: l in rows ==> l.profileId.Some? && l.profileId.value != []) ==> |r| == |rows|
  {
    if rows == [] then []
    else
      var l := rows[0];
      var rest := FormatNeighbors(rows[1..]);
      if l.profileId.Some? && l.profileId.value != []
      then [Format(l)] + rest
      else rest
  }

  // ------------------------------------------------------------------- page

  class CommunityPage {
    /** The signed-in user's id. */
    var user: Option<string>
    /** The `tenant_complaints` rows in the store, most recently updated first. */
    var table: seq<Complaint>
    /** The complaint list on screen, as last fetched. */
    var complaints: seq<Complaint>
    /** All message rows, in creation order. */
    var log: seq<Message>
    /** The complaint whose thread is open. */
    var active: Option<Complaint>
    /** The thread on screen. */
    var messages: seq<Message>
    /** The text in the message box. */
    var newMessage: string
    var form: ComplaintForm
    var createOpen: bool

    /** The page loads the complaint list from the store. */
    constructor (user: Option<string>, table: seq<Complaint>, log: seq<Message>)
      ensures this.user == user && this.table == table && complaints == table && this.log == log
      ensures active == None && messages == [] && newMessage == "" && form == BlankForm && !createOpen
    {
      this.user := user;
      this.table := table;
      complaints := table;
      this.log := log;
      active := None;
      messages := [];
      newMessage := "";
      form := BlankForm;
      createOpen := false;
    }

    /** The "new complaint" button opens the form. */
    method OpenForm()
      modifies this
      ensures createOpen
      ensures user == old(user) && table == old(table) && complaints == old(complaints) && log == old(log) && active == old(active)
      ensures messages == old(messages) && newMessage == old(newMessage) && form == old(form)
    {
      createOpen := true;
    }

    /** Opening a complaint from the list loads its thread. */
    method SelectComplaint(c: Complaint)
      modifies this
      ensures active == Some(c) && messages == Thread(log, c.id)
      ensures user == old(user) && table == old(table) && complaints == old(complaints) && log == old(log)
      ensures newMessage == old(newMessage) && form == old(form) && createOpen == old(createOpen)
    {
      active := Some(c);
      messages := Thread(log, c.id);
    }

    /**
     * `handleCreateComplaint`, behind the "Start Resolution" button of the open form. `unitProperty` is the property found for the chosen unit,
     * `inserted` the id the store gives the new row (None on error), `seedOk` whether the
     * seed message was stored. The new row is the most recently updated, so the refetch
     * of the list shows it first.
     */
    method CreateComplaint(unitProperty: Option<string>, inserted: Option<string>, seedOk: bool)
      modifies this
      ensures var f := old(form);
        !old(createOpen) || user.None? || f.unitId == "" || f.description == "" || unitProperty.None? || inserted.None?
        ==> unchanged(this)
      ensures var f := old(form);
        old(createOpen) && user.Some? && f.unitId != "" && f.description != "" && unitProperty.Some? && inserted.Some? ==>
          && table == [Complaint(inserted.value, user.value, f.unitId, unitProperty.value, f.category, f.description, Open, None)]
                      + old(table)
          && complaints == table
          && log == old(log) + (if seedOk then [Message(inserted.value, user.value, SeedText(f.category, f.description))] else [])
          && form == BlankForm && !createOpen
          && user == old(user) && active == old(active) && messages == old(messages) && newMessage == old(newMessage)
    {
      if !createOpen {
        return;
      }
      if user.None? || form.unitId == "" || form.description == "" {
        return;
      }
      if unitProperty.None? || inserted.None? {
        return;
      }
      var c := Complaint(inserted.value, user.value, form.unitId, unitProperty.value, form.category, form.description, Open, None);
      table := [c] + table;
      complaints := table;
      if seedOk {
        log := log + [Message(c.id, user.value, SeedText(c.category, c.description))];
      }
      createOpen := false;
      form := BlankForm;
    }

    /** Adds a stored message to the log, clears the message box and reloads the open thread. */
    method Post(m: Message, id: string)
      modifies this
      ensures log == old(log) + [m] && newMessage == "" && messages == Thread(log, id)
      ensures user == old(user) && table == old(table) && complaints == old(complaints) && active == old(active)
      ensures form == old(form) && createOpen == old(createOpen)
    {
      var logged := log + [m];
      log, newMessage, messages := logged, "", Thread(logged, id);
    }

    /** `handleSendMessage`: the untrimmed text is stored; the box is cleared only when the insert succeeds. */
    method SendMessage(insertOk: bool)
      modifies this
      ensures user == old(user) && table == old(table) && complaints == old(complaints) && active == old(active)
      ensures form == old(form) && createOpen == old(createOpen)
      ensures IsBlank(old(newMessage)) || active.None? || user.None? || !insertOk ==> unchanged(this)
      ensures !IsBlank(old(newMessage)) && active.Some? && user.Some? && insertOk ==>
        && log == old(log) + [Message(active.value.id, user.value, old(newMessage))]
        && newMessage == "" && messages == Thread(log, active.value.id)
    {
      var trimmed := Trim(newMessage);
      TrimEmptyIffBlank(newMessage);
      if trimmed == [] || active.None? || user.None? || !insertOk {
        return;
      }
      Post(Message(active.value.id, user.value, newMessage), active.value.id);
    }

    /**
     * A click on "Escalate to Landlord" (shown only while the selected complaint reads open):
     * after the user confirms and the update succeeds, the store row is escalated, the
     * selected complaint reads escalated, one system note is logged and the thread is
     * reloaded. The list on screen is not refetched. Without a signed-in user the note is
     * not written, yet the change of the selected complaint still reloads the thread.
     */
    method ClickEscalate(confirmed: bool, updateOk: bool, logOk: bool, now: int)
      modifies this
      ensures user == old(user) && complaints == old(complaints)
      ensures newMessage == old(newMessage) && form == old(form) && createOpen == old(createOpen)
      ensures old(active).Some? ==> active.Some? && active.value.status == Step(old(active).value.status, EscalateClick(confirmed, updateOk))
      ensures !(old(active).Some? && EscalateOffered(old(active).value.status) && confirmed && updateOk) ==> unchanged(this)
      ensures old(active).Some? && EscalateOffered(old(active).value.status) && confirmed && updateOk ==>
        var id := old(active).value.id;
        && active == Some(old(active).value.(status := Escalated))
        && table == WithStatus(old(table), id, Escalated, Some(now))
        && log == old(log) + (if user.Some? && logOk then [Message(id, user.value, EscalationNote)] else [])
        && messages == Thread(log, id)
    {
      if active.None? || !EscalateOffered(active.value.status) || !confirmed || !updateOk {
        return;
      }
      var id := active.value.id;
      var logged := log + (if user.Some? && logOk then [Message(id, user.value, EscalationNote)] else []);
      table, active := WithStatus(table, id, Escalated, Some(now)), Some(active.value.(status := Escalated));
      log, messages := logged, Thread(logged, id);
    }

    /**
     * A click on "Mark Resolved" (shown while the selected complaint does not read resolved):
     * after a successful update the store row is resolved, the selected complaint reads
     * resolved, one system note is logged and the thread is reloaded; the list on screen is
     * not refetched.
     */
    method ClickResolve(updateOk: bool, logOk: bool)
      modifies this
      ensures user == old(user) && complaints == old(complaints)
      ensures newMessage == old(newMessage) && form == old(form) && createOpen == old(createOpen)
      ensures old(active).Some? ==> active.Some? && active.value.status == Step(old(active).value.status, ResolveClick(updateOk))
      ensures !(old(active).Some? && ResolveOffered(old(active).value.status) && updateOk) ==> unchanged(this)
      ensures old(active).Some? && ResolveOffered(old(active).value.status) && updateOk ==>
        var id := old(active).value.id;
        && active == Some(old(active).value.(status := Resolved))
        && table == WithStatus(old(table), id, Resolved, None)
        && log == old(log) + (if user.Some? && logOk then [Message(id, user.value, ResolutionNote)] else [])
        && messages == Thread(log, id)
    {
      if active.None? || !ResolveOffered(active.value.status) || !updateOk {
        return;
      }
      var id := active.value.id;
      var logged := log + (if user.Some? && logOk then [Message(id, user.value, ResolutionNote)] else []);
      table, active := WithStatus(table, id, Resolved, None), Some(active.value.(status := Resolved));
      log, messages := logged, Thread(logged, id);
    }
  }

  /**
   * Because the list is not refetched after a status change, a complaint resolved from
   * the page and then reopened from the list reads open again and is offered "Escalate
   * to Landlord": the store row goes from resolved to escalated.
   */
  method StaleListReescalates(now: int) returns (resolved: Complaint, escalated: Complaint)
    ensures resolved.id == escalated.id
    ensures resolved.status == Resolved && escalated.status == Escalated
  {
    var x := Complaint("x", "me", "u1", "p", "Noise", "Loud music", Open, None);
    var y := Complaint("y", "me", "u2", "p", "Parking", "Blocked spot", Open, None);
    var page := new CommunityPage(Some("me"), [x, y], []);
    page.SelectComplaint(x);
    page.ClickResolve(true, true);
    resolved := page.table[0];
    page.SelectComplaint(y);
    page.SelectComplaint(page.complaints[0]);
    page.ClickEscalate(true, true, true, now);
    escalated := page.table[0];
  }
}
