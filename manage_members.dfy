/**
 * The admin's member management screen (pages/admin/ManageMembersView.tsx):
 * the pending-application list and its selection, the member search, the
 * inline role editor with its revert-on-failure save, and the CSV export.
 */
module ManageMembers {
  import opened Records
  import opened Seqs
  import opened Text
  import Rfc4180

  predicate IsPending(a: MembershipApplication)
  {
    a.status == Pending
  }

  /** The applications still awaiting a decision, in the order received. */
  function PendingApplications(apps: seq<MembershipApplication>): (r: seq<MembershipApplication>)
    ensures forall a :: a in r <==> a in apps && a.status == Pending
  {
    Filter(apps, IsPending)
  }

  lemma PendingKeepsOrder(apps: seq<MembershipApplication>)
    ensures IsSubsequence(PendingApplications(apps), apps)
  {
    FilterIsSubsequence(apps, IsPending);
  }

  /** `apps.map(app => app.id)`. */
  function Ids(apps: seq<MembershipApplication>): (r: seq<string>)
    ensures |r| == |apps|
    ensures forall i :: 0 <= i < |apps| ==> r[i] == apps[i].id
  {
    seq(|apps|, i requires 0 <= i < |apps| => apps[i].id)
  }

  // ---------------------------------------------------------------- search

  /** The member's lower-cased name or email contains the lower-cased term. */
  predicate MatchesSearch(m: Profile, term: string)
  {
    Contains(ToLower(m.name), ToLower(term)) || Contains(ToLower(m.email), ToLower(term))
  }

  /** The members shown on the "All Members" tab for a search term. */
  function FilteredMembers(members: seq<Profile>, term: string): (r: seq<Profile>)
    ensures term == "" ==> r == members
    ensures term != "" ==> forall m :: m in r <==> m in members && MatchesSearch(m, term)
  {
    if term == "" then members else Filter(members, m => MatchesSearch(m, term))
  }

  lemma FilteredMembersKeepsOrder(members: seq<Profile>, term: string)
    ensures IsSubsequence(FilteredMembers(members, term), members)
  {
    if term == "" {
      SubsequenceReflexive(members);
    } else {
      FilterIsSubsequence(members, m => MatchesSearch(m, term));
    }
  }

  /** A match means the lower-cased term occurs at some position of the lower-cased name or email. */
  lemma {:induction false} MatchesSearchIff(m: Profile, term: string)
    ensures MatchesSearch(m, term) <==>
      Occurs(ToLower(m.name), ToLower(term)) || Occurs(ToLower(m.email), ToLower(term))
  {
    var n, e, t := ToLower(m.name), ToLower(m.email), ToLower(term);
    ContainsIff(n, t);
    ContainsIff(e, t);
    assert MatchesSearch(m, term) <==> Contains(n, t) || Contains(e, t);
  }

  /** The search ignores the case of the term: typing it in upper or lower case shows the same members. */
  lemma SearchIgnoresTermCase(members: seq<Profile>, term: string)
    ensures FilteredMembers(members, term) == FilteredMembers(members, ToLower(term))
  {
    if term != "" {
      ToLowerIdempotent(term);
      assert ToLower(term) != "";
      FilterCongruent(members, m => MatchesSearch(m, term), m => MatchesSearch(m, ToLower(term)));
    }
  }

  // ------------------------------------------------------------- selection

  /** The header checkbox as the view computes it: a comparison of lengths only. */
  function AllPendingSelected(pending: seq<MembershipApplication>, selected: seq<string>): bool
  {
    |pending| > 0 && |selected| == |pending|
  }

  /**
   * The length comparison can report "all selected" while a pending
   * application is unselected: here `a` was selected and then approved with its
   * own row button, which does not prune the selection, so the only pending
   * application `b` is unselected yet the header shows checked.
   */
  lemma StaleSelectionChecksHeader()
    ensures var a := MembershipApplication("a", "Ana", "ana@x", "1", "P", "5", Approved, "t");
            var b := MembershipApplication("b", "Ben", "ben@x", "2", "Q", "9", Pending, "t");
            var pending := PendingApplications([a, b]);
            pending == [b] && AllPendingSelected(pending, ["a"]) && b.id !in ["a"]
  {
    var a := MembershipApplication("a", "Ana", "ana@x", "1", "P", "5", Approved, "t");
    var b := MembershipApplication("b", "Ben", "ben@x", "2", "Q", "9", Pending, "t");
    assert PendingApplications([a, b]) == [b];
  }

  /** What the header checkbox is meant to show: there are pending applications and every one is selected. */
  function EveryPendingSelected(pending: seq<MembershipApplication>, selected: seq<string>): (checked: bool)
    ensures checked <==> |pending| > 0 && forall i :: 0 <= i < |pending| ==> pending[i].id in selected
    ensures checked ==> |Ids(pending)| > 0 && forall id :: id in Ids(pending) ==> id in selected
  {
    |pending| > 0 && forall a :: a in pending ==> a.id in selected
  }

  /** The intended test is not fooled by the stale selection above. */
  lemma StaleSelectionLeavesHeaderUnchecked()
    ensures var a := MembershipApplication("a", "Ana", "ana@x", "1", "P", "5", Approved, "t");
            var b := MembershipApplication("b", "Ben", "ben@x", "2", "Q", "9", Pending, "t");
            !EveryPendingSelected(PendingApplications([a, b]), ["a"])
  {
    var a := MembershipApplication("a", "Ana", "ana@x", "1", "P", "5", Approved, "t");
    var b := MembershipApplication("b", "Ben", "ben@x", "2", "Q", "9", Pending, "t");
    assert PendingApplications([a, b]) == [b];
  }

  /**
   * When the selection holds distinct ids of pending applications only (as
   * select-one and select-all produce while no selected application leaves the
   * pending list), the shipped length test and the intended test agree.
   */
  lemma HeaderTestsAgree(pending: seq<MembershipApplication>, selected: seq<string>)
    requires Distinct(Ids(pending)) && Distinct(selected)
    requires forall id :: id in selected ==> id in Ids(pending)
    ensures AllPendingSelected(pending, selected) <==> EveryPendingSelected(pending, selected)
  {
    var ids := Ids(pending);
    SameLengthCoversAll(selected, ids);
    assert forall a :: a in pending ==> a.id in ids by {
      forall a | a in pending ensures a.id in ids {
        var k :| 0 <= k < |pending| && pending[k] == a;
        assert ids[k] == a.id;
      }
    }
    assert forall id :: id in ids ==> exists a :: a in pending && a.id == id by {
      forall id | id in ids ensures exists a :: a in pending && a.id == id {
        var k :| 0 <= k < |ids| && ids[k] == id;
        assert pending[k] in pending;
      }
    }
  }

  // ---------------------------------------------------------------- export

  /** `.replace(/"/g, '""')`: every `"` of the field written twice. */
  function DoubleQuotes(s: string): string
  {
    if s == [] then [] else (if s[0] == '"' then "\"\"" else [s[0]]) + DoubleQuotes(s[1..])
  }

  /** `escapeCsvField`: the field with its quotes doubled, wrapped in quotes. */
  function EscapeCsvField(field: string): (r: string)
    ensures |r| >= 2 && r[0] == '"' && r[|r| - 1] == '"'
  {
    "\"" + DoubleQuotes(field) + "\""
  }

  /** Reading the doubled body up to the closing quote gives back the original text. */
  lemma {:induction false} DoubleQuotesRoundTrip(f: string, rest: string)
    requires rest == [] || rest[0] != '"'
    ensures Rfc4180.ParseEscaped(DoubleQuotes(f) + "\"" + rest) == Some((f, rest))
    decreases |f|
  {
    if f == [] {
      assert DoubleQuotes(f) + "\"" + rest == "\"" + rest;
    } else {
      var tail := DoubleQuotes(f[1..]) + "\"" + rest;
      DoubleQuotesRoundTrip(f[1..], rest);
      if f[0] == '"' {
        assert DoubleQuotes(f) + "\"" + rest == "\"\"" + tail;
        assert ("\"\"" + tail)[2..] == tail;
      } else {
        assert DoubleQuotes(f) + "\"" + rest == [f[0]] + tail;
        assert ([f[0]] + tail)[1..] == tail;
      }
      assert [f[0]] + f[1..] == f;
    }
  }

  /** An escaped field is read back, by section 2 rule 7 of RFC 4180, as the original text. */
  lemma EscapeCsvFieldDecodes(f: string)
    ensures Rfc4180.EncodesField(EscapeCsvField(f), f)
    ensures Rfc4180.ParseEscaped(EscapeCsvField(f)[1..]) == Some((f, ""))
  {
    assert EscapeCsvField(f)[1..] == DoubleQuotes(f) + "\"" + "";
    DoubleQuotesRoundTrip(f, "");
    forall r | Rfc4180.AfterField(r)
      ensures Rfc4180.ParseField(EscapeCsvField(f) + r) == Some((f, r))
    {
      assert (EscapeCsvField(f) + r)[1..] == DoubleQuotes(f) + "\"" + r;
      DoubleQuotesRoundTrip(f, r);
    }
  }

  const Headers: seq<string> := ["UID", "Name", "Email", "Role"]

  /** The four values a member contributes to the export. */
  function Fields(m: Profile): seq<string>
  {
    [m.uid, m.name, m.email, RoleName(m.role)]
  }

  function Row(m: Profile): string
  {
    Join([EscapeCsvField(m.uid), EscapeCsvField(m.name), EscapeCsvField(m.email), EscapeCsvField(RoleName(m.role))], ",")
  }

  /** The header line followed by one row per member, joined by line feeds. */
  function CsvContent(members: seq<Profile>): string
  {
    Join([Join(Headers, ",")] + seq(|members|, i requires 0 <= i < |members| => Row(members[i])), "\n")
  }

  datatype ExportResult = NothingToExport | Csv(content: string)

  /** `handleExportData`: with no members only the alert is raised; otherwise the CSV text is produced. */
  function ExportData(members: seq<Profile>): (r: ExportResult)
    ensures r.NothingToExport? <==> members == []
  {
    if |members| == 0 then NothingToExport else Csv(CsvContent(members))
  }

  lemma RowDecodes(m: Profile)
    ensures Rfc4180.EncodesRecord(Row(m), Fields(m))
  {
    var es := [EscapeCsvField(m.uid), EscapeCsvField(m.name), EscapeCsvField(m.email), EscapeCsvField(RoleName(m.role))];
    EscapeCsvFieldDecodes(m.uid);
    EscapeCsvFieldDecodes(m.name);
    EscapeCsvFieldDecodes(m.email);
    EscapeCsvFieldDecodes(RoleName(m.role));
    Rfc4180.JoinEncodesRecord(es, Fields(m));
  }

  lemma HeaderDecodes()
    ensures Rfc4180.EncodesRecord(Join(Headers, ","), Headers)
  {
    forall i | 0 <= i < |Headers| ensures Rfc4180.EncodesField(Headers[i], Headers[i]) {
      Rfc4180.BareEncodes(Headers[i]);
    }
    Rfc4180.JoinEncodesRecord(Headers, Headers);
  }

  /**
   * Read back as RFC 4180 text, the export is the header record followed by
   * exactly one four-field record per member, in member order.
   */
  lemma ExportRoundTrip(members: seq<Profile>)
    requires members != []
    ensures ExportData(members).Csv?
    ensures Rfc4180.ParseFile(ExportData(members).content)
            == Some([Headers] + seq(|members|, i requires 0 <= i < |members| => Fields(members[i])))
  {
    var lines := [Join(Headers, ",")] + seq(|members|, i requires 0 <= i < |members| => Row(members[i]));
    var recs := [Headers] + seq(|members|, i requires 0 <= i < |members| => Fields(members[i]));
    forall i | 0 <= i < |lines| ensures Rfc4180.EncodesRecord(lines[i], recs[i]) {
      if i == 0 {
        HeaderDecodes();
      } else {
        RowDecodes(members[i - 1]);
      }
    }
    Rfc4180.JoinEncodesFile(lines, recs);
  }

  // ------------------------------------------------------------ role state

  /** `members.reduce(...)`: each member's uid mapped to its role, a later duplicate uid winning. */
  function InitialRoles(members: seq<Profile>): map<string, Role>
  {
    ToMap(members, (m: Profile) => m.uid, (m: Profile) => m.role)
  }

  /** The initial role map has an entry for every member, holding that member's role when uids are unique. */
  lemma InitialRolesSpec(members: seq<Profile>)
    requires forall i, j :: 0 <= i < j < |members| ==> members[i].uid != members[j].uid
    ensures forall m :: m in members ==> m.uid in InitialRoles(members) && InitialRoles(members)[m.uid] == m.role
    ensures forall uid :: uid in InitialRoles(members) ==> exists m :: m in members && m.uid == uid
  {
    ToMapDistinct(members, (m: Profile) => m.uid, (m: Profile) => m.role);
    forall m | m in members
      ensures m.uid in InitialRoles(members) && InitialRoles(members)[m.uid] == m.role
    {
      var k :| 0 <= k < |members| && members[k] == m;
    }
  }

  /** `members.find(m => m.uid === uid)`: the first member with that uid, if any. */
  function FindMember(members: seq<Profile>, uid: string): (r: Option<Profile>)
    ensures r.Some? ==> r.value in members && r.value.uid == uid
    ensures r.None? <==> forall m :: m in members ==> m.uid != uid
    ensures r.Some? ==> exists k :: 0 <= k < |members| && members[k] == r.value &&
                          forall j :: 0 <= j < k ==> members[j].uid != uid
  {
    if members == [] then None
    else if members[0].uid == uid then Some(members[0])
    else
      var r := FindMember(members[1..], uid);
      assert r.Some? ==> r.value in members;
      assert forall m :: m in members ==> m == members[0] || m in members[1..];
      if r.Some? then
        var k :| 0 <= k < |members[1..]| && members[1..][k] == r.value &&
                 forall j :: 0 <= j < k ==> members[1..][j].uid != uid;
        assert members[k + 1] == r.value;
        assert forall j :: 1 <= j < k + 1 ==> members[j].uid == members[1..][j - 1].uid;
        r
      else r
  }

  datatype BulkRequest = BulkRequest(ids: seq<string>, status: ApplicationStatus)

  /** The component state of the member management screen, with its props. */
  class MembersView {
    var applications: seq<MembershipApplication>
    var members: seq<Profile>
    var selected: seq<string>
    var isBulkUpdating: bool
    var searchTerm: string
    var memberRoles: map<string, Role>
    var updatingUids: seq<string>

    /** Mounting, with the role-initialising effect already run. */
    constructor (applications: seq<MembershipApplication>, members: seq<Profile>)
      ensures this.applications == applications && this.members == members
      ensures selected == [] && !isBulkUpdating && searchTerm == "" && updatingUids == []
      ensures memberRoles == InitialRoles(members)
    {
      this.applications := applications;
      this.members := members;
      selected := [];
      isBulkUpdating := false;
      searchTerm := "";
      memberRoles := InitialRoles(members);
      updatingUids := [];
    }

    /** A new `members` prop re-runs the effect, discarding unsaved role edits. */
    method MembersChanged(members: seq<Profile>)
      modifies this
      ensures this.members == members && memberRoles == InitialRoles(members)
      ensures applications == old(applications) && selected == old(selected)
      ensures isBulkUpdating == old(isBulkUpdating) && searchTerm == old(searchTerm)
      ensures updatingUids == old(updatingUids)
    {
      this.members := members;
      memberRoles := InitialRoles(members);
    }

    method ApplicationsChanged(applications: seq<MembershipApplication>)
      modifies this`applications
      ensures this.applications == applications
    {
      this.applications := applications;
    }

    method SetSearchTerm(term: string)
      modifies this`searchTerm
      ensures searchTerm == term
    {
      searchTerm := term;
    }

    /** The members the table currently lists. */
    function Shown(): seq<Profile>
      reads this
    {
      FilteredMembers(members, searchTerm)
    }

    /** The header checkbox as the view renders it: the length-only test. */
    predicate HeaderChecked()
      reads this
    {
      AllPendingSelected(PendingApplications(applications), selected)
    }

    /** `handleSelectAll`: checked selects exactly the pending ids in order; unchecked clears. */
    method SelectAll(checked: bool)
      modifies this`selected
      ensures checked ==> selected == Ids(PendingApplications(applications))
      ensures !checked ==> selected == []
      ensures checked && PendingApplications(applications) != [] ==> HeaderChecked()
      ensures !checked ==> !HeaderChecked()
    {
      if checked {
        selected := Ids(PendingApplications(applications));
      } else {
        selected := [];
      }
    }

    /** `handleSelectOne`: checked appends the id; unchecked drops every copy of it and keeps the rest in order. */
    method SelectOne(checked: bool, id: string)
      modifies this`selected
      ensures checked ==> selected == old(selected) + [id]
      ensures !checked ==> selected == Remove(old(selected), id)
      ensures !checked ==> id !in selected && IsSubsequence(selected, old(selected))
      ensures !checked ==> forall x :: x != id ==> (x in selected <==> x in old(selected))
    {
      if checked {
        selected := selected + [id];
      } else {
        RemoveIsSubsequence(selected, id);
        selected := Remove(selected, id);
      }
    }

    /** `handleBulkAction`, up to the call into the parent: nothing happens with an empty selection. */
    method BeginBulkAction(status: ApplicationStatus) returns (request: Option<BulkRequest>)
      modifies this`isBulkUpdating
      ensures old(selected) == [] ==> request == None && isBulkUpdating == old(isBulkUpdating)
      ensures old(selected) != [] ==> request == Some(BulkRequest(selected, status)) && isBulkUpdating
    {
      if |selected| == 0 {
        return None;
      }
      isBulkUpdating := true;
      request := Some(BulkRequest(selected, status));
    }

    /** The rest of `handleBulkAction`: a successful batch clears the selection; the flag drops either way. */
    method FinishBulkAction(succeeded: bool)
      modifies this`selected, this`isBulkUpdating
      ensures succeeded ==> selected == []
      ensures !succeeded ==> selected == old(selected)
      ensures !isBulkUpdating
    {
      if succeeded {
        selected := [];
      }
      isBulkUpdating := false;
    }

    /** `handleRoleChange`: the edit touches only that member's entry. */
    method RoleChange(uid: string, role: Role)
      modifies this`memberRoles
      ensures memberRoles == old(memberRoles)[uid := role]
      ensures forall u :: u != uid ==> (u in memberRoles <==> u in old(memberRoles))
      ensures forall u :: u != uid && u in memberRoles ==> memberRoles[u] == old(memberRoles)[u]
    {
      memberRoles := memberRoles[uid := role];
    }

    /** `handleSaveRole` up to the await: the uid is marked as saving and its edited role (if any) is sent. */
    method BeginSaveRole(uid: string) returns (requested: Option<Role>)
      modifies this`updatingUids
      ensures updatingUids == old(updatingUids) + [uid]
      ensures uid in updatingUids
      ensures requested == if uid in memberRoles then Some(memberRoles[uid]) else None
    {
      updatingUids := updatingUids + [uid];
      requested := if uid in memberRoles then Some(memberRoles[uid]) else None;
    }

    /**
     * The rest of `handleSaveRole`: on failure the entry is restored to the
     * member's role from the props (when that member is found) and no other
     * entry changes; the uid stops being marked as saving either way.
     */
    method FinishSaveRole(uid: string, succeeded: bool)
      modifies this`memberRoles, this`updatingUids
      ensures succeeded ==> memberRoles == old(memberRoles)
      ensures !succeeded && FindMember(members, uid).Some? ==>
                memberRoles == old(memberRoles)[uid := FindMember(members, uid).value.role]
      ensures !succeeded && FindMember(members, uid).None? ==> memberRoles == old(memberRoles)
      ensures updatingUids == Remove(old(updatingUids), uid)
      ensures uid !in updatingUids
      ensures forall u :: u != uid ==> (u in updatingUids <==> u in old(updatingUids))
    {
      if !succeeded {
        var original := FindMember(members, uid);
        if original.Some? {
          memberRoles := memberRoles[uid := original.value.role];
        }
      }
      updatingUids := Remove(updatingUids, uid);
    }
  }
}
