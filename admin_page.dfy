/**
 * The admin console (pages/AdminPage.tsx): the network statistics, the
 * recent-application list, the status and role writes it hands to the member
 * screen, the profile list it assembles from the user documents, and the
 * choice of sub-view.
 *
 * The application collection is modelled as a map from document id to
 * application; a write batch is applied to it all at once or not at all.
 */
module AdminPage {
  import opened Records
  import opened Seqs
  import ManageMembers

  datatype NetworkStats = NetworkStats(totalMembers: int, pendingApplications: int, activeListings: int)

  /** The number of applications whose status is pending, as the snapshot listener stores it. */
  function PendingStat(apps: seq<MembershipApplication>): (n: nat)
    ensures n <= |apps|
  {
    |ManageMembers.PendingApplications(apps)|
  }

  predicate IsDecided(a: MembershipApplication)
  {
    a.status != Pending
  }

  /** The pending count and the count of decided applications add up to the whole collection. */
  lemma PendingStatPartition(apps: seq<MembershipApplication>)
    ensures PendingStat(apps) + |Filter(apps, IsDecided)| == |apps|
  {
    FilterPartition(apps, ManageMembers.IsPending, IsDecided);
  }

  /** Adding an application raises the pending count by one exactly when it is pending. */
  lemma PendingStatAppend(apps: seq<MembershipApplication>, a: MembershipApplication)
    ensures PendingStat(apps + [a]) == PendingStat(apps) + (if a.status == Pending then 1 else 0)
  {
    FilterAppend(apps, [a], ManageMembers.IsPending);
  }

  /** The overview's list: the first five pending applications in the order received. */
  function RecentApplications(apps: seq<MembershipApplication>): seq<MembershipApplication>
  {
    JsSlice(ManageMembers.PendingApplications(apps), 0, 5)
  }

  lemma RecentApplicationsSpec(apps: seq<MembershipApplication>)
    ensures var pending := ManageMembers.PendingApplications(apps);
            |RecentApplications(apps)| == (if |pending| < 5 then |pending| else 5) &&
            RecentApplications(apps) == pending[..|RecentApplications(apps)|]
    ensures forall a :: a in RecentApplications(apps) ==> a in apps && a.status == Pending
  {
    var pending := ManageMembers.PendingApplications(apps);
    TakePrefix(pending, 5);
    var r := RecentApplications(apps);
    forall a | a in r ensures a in pending {
      var k :| 0 <= k < |r| && r[k] == a;
      assert pending[k] == a;
    }
  }

  // ------------------------------------------------------- status batch

  datatype StatusUpdate = StatusUpdate(id: string, status: ApplicationStatus)

  /** The store after every listed application document has been given the status. */
  function SetStatuses(store: map<string, MembershipApplication>, ids: seq<string>, status: ApplicationStatus)
    : (r: map<string, MembershipApplication>)
    requires forall id :: id in ids ==> id in store
    ensures r.Keys == store.Keys
    ensures forall k :: k in store && k in ids ==> r[k] == store[k].(status := status)
    ensures forall k :: k in store && k !in ids ==> r[k] == store[k]
  {
    if ids == [] then store
    else
      assert forall id :: id in ids[1..] ==> id in ids;
      var rest := SetStatuses(store, ids[1..], status);
      assert forall k :: k in ids <==> k == ids[0] || k in ids[1..];
      rest[ids[0] := store[ids[0]].(status := status)]
  }

  /** Applying the same decision twice leaves the store as applying it once. */
  lemma SetStatusesIdempotent(store: map<string, MembershipApplication>, ids: seq<string>, status: ApplicationStatus)
    requires forall id :: id in ids ==> id in store
    ensures SetStatuses(SetStatuses(store, ids, status), ids, status) == SetStatuses(store, ids, status)
  {
  }

  function UpdatesOf(ids: seq<string>, status: ApplicationStatus): (batch: seq<StatusUpdate>)
    ensures |batch| == |ids|
    ensures forall i :: 0 <= i < |ids| ==> batch[i] == StatusUpdate(ids[i], status)
  {
    seq(|ids|, i requires 0 <= i < |ids| => StatusUpdate(ids[i], status))
  }

  /**
   * `batch.commit()`: with the store reachable and every updated document
   * present, all updates are applied; otherwise none is.
   */
  function CommitStatusBatch(store: map<string, MembershipApplication>, batch: seq<StatusUpdate>, reachable: bool)
    : (r: Option<map<string, MembershipApplication>>)
    requires forall i, j :: 0 <= i < |batch| && 0 <= j < |batch| ==> batch[i].status == batch[j].status
    ensures r.Some? <==> reachable && forall u :: u in batch ==> u.id in store
    ensures r.Some? && batch != [] ==>
      r.value == SetStatuses(store, seq(|batch|, i requires 0 <= i < |batch| => batch[i].id), batch[0].status)
    ensures r.Some? && batch == [] ==> r.value == store
  {
    var ids := seq(|batch|, i requires 0 <= i < |batch| => batch[i].id);
    assert forall u :: u in batch ==> u.id in ids by {
      forall u | u in batch ensures u.id in ids {
        var k :| 0 <= k < |batch| && batch[k] == u;
        assert ids[k] == u.id;
      }
    }
    if !reachable || exists u :: u in batch && u.id !in store then None
    else if batch == [] then Some(store)
    else Some(SetStatuses(store, ids, batch[0].status))
  }

  datatype Outcome = NothingToDo | Committed | Rethrown

  /**
   * `handleBulkUpdateApplicationStatus`: an empty list does nothing; otherwise
   * one update per id is queued and the batch committed. A failed commit leaves
   * every document as it was and the error is passed on to the caller.
   */
  method BulkUpdateApplicationStatus(store: map<string, MembershipApplication>, ids: seq<string>,
                                     status: ApplicationStatus, reachable: bool)
    returns (store': map<string, MembershipApplication>, outcome: Outcome)
    ensures ids == [] ==> outcome == NothingToDo && store' == store
    ensures ids != [] && reachable && (forall id :: id in ids ==> id in store) ==>
              outcome == Committed && store' == SetStatuses(store, ids, status)
    ensures ids != [] && !(reachable && forall id :: id in ids ==> id in store) ==>
              outcome == Rethrown && store' == store
  {
    if |ids| == 0 {
      return store, NothingToDo;
    }
    var batch: seq<StatusUpdate> := [];
    var i := 0;
    while i < |ids|
      invariant 0 <= i <= |ids|
      invariant batch == UpdatesOf(ids[..i], status)
    {
      batch := batch + [StatusUpdate(ids[i], status)];
      i := i + 1;
    }
    assert ids[..i] == ids;
    var ids' := seq(|batch|, k requires 0 <= k < |batch| => batch[k].id);
    assert ids' == ids;
    assert forall id :: id in ids ==> exists u :: u in batch && u.id == id by {
      forall id | id in ids ensures exists u :: u in batch && u.id == id {
        var k :| 0 <= k < |ids| && ids[k] == id;
        assert batch[k] in batch;
      }
    }
    var committed := CommitStatusBatch(store, batch, reachable);
    if committed.Some? {
      store', outcome := committed.value, Committed;
    } else {
      store', outcome := store, Rethrown;
    }
  }

  /** `handleUpdateApplicationStatus`: a single document write; a failure is reported and swallowed. */
  function UpdateApplicationStatus(store: map<string, MembershipApplication>, id: string,
                                   status: ApplicationStatus, reachable: bool)
    : (r: map<string, MembershipApplication>)
    ensures r.Keys == store.Keys
    ensures forall k :: k in store && k != id ==> r[k] == store[k]
    ensures reachable && id in store ==> r[id].status == status && r[id].(status := store[id].status) == store[id]
    ensures !(reachable && id in store) ==> r == store
  {
    if reachable && id in store then store[id := store[id].(status := status)] else store
  }

  /** The single write changes the store exactly as a one-document batch would. */
  lemma SingleUpdateIsOneDocumentBatch(store: map<string, MembershipApplication>, id: string,
                                       status: ApplicationStatus, reachable: bool)
    ensures var r := CommitStatusBatch(store, [StatusUpdate(id, status)], reachable);
            (r.Some? ==> UpdateApplicationStatus(store, id, status, reachable) == r.value) &&
            (r.None? ==> UpdateApplicationStatus(store, id, status, reachable) == store)
  {
    var batch := [StatusUpdate(id, status)];
    assert seq(|batch|, i requires 0 <= i < |batch| => batch[i].id) == [id];
  }

  // ----------------------------------------------------------- member roles

  /** `prevUsers.map(user => user.uid === uid ? {...user, role} : user)`. */
  function WithRole(users: seq<Profile>, uid: string, role: Role): (r: seq<Profile>)
    ensures |r| == |users|
    ensures forall i :: 0 <= i < |users| && users[i].uid == uid ==> r[i] == users[i].(role := role)
    ensures forall i :: 0 <= i < |users| && users[i].uid != uid ==> r[i] == users[i]
  {
    seq(|users|, i requires 0 <= i < |users| => if users[i].uid == uid then users[i].(role := role) else users[i])
  }

  /** The role change touches no uid, name or email, and the changed entries read back with the new role. */
  lemma WithRoleKeepsIdentities(users: seq<Profile>, uid: string, role: Role)
    ensures forall i :: 0 <= i < |users| ==>
      WithRole(users, uid, role)[i].uid == users[i].uid &&
      WithRole(users, uid, role)[i].name == users[i].name &&
      WithRole(users, uid, role)[i].email == users[i].email
    ensures forall p :: p in WithRole(users, uid, role) && p.uid == uid ==> p.role == role
    ensures ManageMembers.FindMember(users, uid).Some? ==>
      ManageMembers.FindMember(WithRole(users, uid, role), uid) == Some(ManageMembers.FindMember(users, uid).value.(role := role))
  {
    var r := WithRole(users, uid, role);
    var f := ManageMembers.FindMember(users, uid);
    if f.Some? {
      var k :| 0 <= k < |users| && users[k] == f.value && forall j :: 0 <= j < k ==> users[j].uid != uid;
      FindMemberAt(r, uid, k);
    }
  }

  /** The member found is the one at the first position carrying the uid. */
  lemma {:induction false} FindMemberAt(users: seq<Profile>, uid: string, k: nat)
    requires k < |users| && users[k].uid == uid
    requires forall j :: 0 <= j < k ==> users[j].uid != uid
    ensures ManageMembers.FindMember(users, uid) == Some(users[k])
  {
    if k > 0 {
      FindMemberAt(users[1..], uid, k - 1);
    }
  }

  // ------------------------------------------------------- profile listing

  /** The fields of a profile document as stored; a missing or empty value is `None` or `""`. */
  datatype ProfileData = ProfileData(name: Option<string>, email: Option<string>, role: Option<Role>)

  /** A user document with its `profile/details` sub-document, when that exists. */
  datatype UserDoc = UserDoc(id: string, details: Option<ProfileData>)

  /** `x || fallback` for an optional string: a missing or empty value falls back. */
  function OrElse(x: Option<string>, fallback: string): (r: string)
    ensures x.Some? && x.value != "" ==> r == x.value
    ensures !(x.Some? && x.value != "") ==> r == fallback
  {
    if x.Some? && x.value != "" then x.value else fallback
  }

  /** The profile listed for a user document whose details exist. */
  function ProfileOf(id: string, d: ProfileData): (p: Profile)
    ensures p.uid == id
    ensures p.name == OrElse(d.name, "No Name") && p.email == OrElse(d.email, "No Email")
    ensures p.role == (if d.role.Some? then d.role.value else Member)
  {
    Profile(id, OrElse(d.name, "No Name"), OrElse(d.email, "No Email"), if d.role.Some? then d.role.value else Member)
  }

  /** The profiles listed, one per user document with details, in document order. */
  function CollectProfiles(docs: seq<UserDoc>): seq<Profile>
    decreases |docs|
  {
    if docs == [] then []
    else
      var last := docs[|docs| - 1];
      CollectProfiles(docs[..|docs| - 1]) + (if last.details.Some? then [ProfileOf(last.id, last.details.value)] else [])
  }

  /**
   * Every listed profile comes from a user document with details, under that
   * document's id, and never has an empty name or email; documents without
   * details are skipped.
   */
  lemma {:induction false} CollectProfilesSpec(docs: seq<UserDoc>)
    ensures |CollectProfiles(docs)| <= |docs|
    ensures forall p :: p in CollectProfiles(docs) ==>
      p.name != "" && p.email != "" &&
      exists d :: d in docs && d.details.Some? && p == ProfileOf(d.id, d.details.value)
    ensures forall d :: d in docs && d.details.Some? ==> ProfileOf(d.id, d.details.value) in CollectProfiles(docs)
    decreases |docs|
  {
    if docs != [] {
      var init := docs[..|docs| - 1];
      CollectProfilesSpec(init);
      assert forall d :: d in docs <==> d in init || d == docs[|docs| - 1];
    }
  }

  /**
   * The loop of `fetchStatsAndUsers`: it visits the user documents in order and
   * pushes a defaulted profile for each one whose details exist; the member
   * total is the number pushed.
   */
  method FetchProfiles(docs: seq<UserDoc>) returns (userProfiles: seq<Profile>, totalMembers: nat)
    ensures userProfiles == CollectProfiles(docs)
    ensures totalMembers == |userProfiles|
  {
    userProfiles := [];
    var i := 0;
    while i < |docs|
      invariant 0 <= i <= |docs|
      invariant userProfiles == CollectProfiles(docs[..i])
    {
      var d := docs[i];
      if d.details.Some? {
        userProfiles := userProfiles + [ProfileOf(d.id, d.details.value)];
      }
      assert docs[..i + 1][..i] == docs[..i];
      i := i + 1;
    }
    assert docs[..i] == docs;
    totalMembers := |userProfiles|;
  }

  // ------------------------------------------------------------------ views

  datatype AdminView = HomeView(stats: NetworkStats, recent: seq<MembershipApplication>) | MembersView | SettingsView

  /** `renderView`: "members" and "settings" pick their screens; any other value shows the overview. */
  function RenderView(activeView: string, stats: NetworkStats, apps: seq<MembershipApplication>): (v: AdminView)
    ensures activeView == "members" <==> v.MembersView?
    ensures activeView == "settings" <==> v.SettingsView?
    ensures v.HomeView? ==> v.stats == stats && v.recent == RecentApplications(apps)
  {
    match activeView
    case "home" => HomeView(stats, RecentApplications(apps))
    case "members" => MembersView
    case "settings" => SettingsView
    case _ => HomeView(stats, RecentApplications(apps))
  }

  /** The console's own state: the statistics, the application list and the member list. */
  class AdminConsole {
    var activeView: string
    var stats: NetworkStats
    var applications: seq<MembershipApplication>
    var allUsers: seq<Profile>

    constructor ()
      ensures activeView == "home" && stats == NetworkStats(0, 0, 0)
      ensures applications == [] && allUsers == []
    {
      activeView := "home";
      stats := NetworkStats(0, 0, 0);
      applications := [];
      allUsers := [];
    }

    /** The pending count on the overview always matches the application list. */
    predicate StatsInSync()
      reads this
    {
      stats.pendingApplications == PendingStat(applications)
    }

    /** A sidebar button. */
    method SelectView(id: string)
      modifies this`activeView
      ensures activeView == id
    {
      activeView := id;
    }

    /** The application snapshot listener: the list and its pending count are replaced together. */
    method ApplicationsSnapshot(apps: seq<MembershipApplication>)
      modifies this`applications, this`stats
      ensures applications == apps
      ensures stats == old(stats).(pendingApplications := PendingStat(apps))
      ensures StatsInSync()
    {
      applications := apps;
      stats := stats.(pendingApplications := PendingStat(apps));
    }

    /** The listing count arriving from the server. */
    method ListingsCounted(count: nat)
      modifies this`stats
      ensures stats == old(stats).(activeListings := count)
    {
      stats := stats.(activeListings := count);
    }

    /** The end of `fetchStatsAndUsers`: the member list and the member total. */
    method UsersFetched(docs: seq<UserDoc>)
      modifies this`allUsers, this`stats
      ensures allUsers == CollectProfiles(docs)
      ensures stats == old(stats).(totalMembers := |allUsers|)
    {
      var profiles, total := FetchProfiles(docs);
      allUsers := profiles;
      stats := stats.(totalMembers := total);
    }

    /**
     * `handleUpdateMemberRole`: after a successful write the member list shows
     * the new role for that uid; after a failure nothing changes and the error
     * is passed on.
     */
    method UpdateMemberRole(uid: string, role: Role, succeeded: bool) returns (outcome: Outcome)
      modifies this`allUsers
      ensures succeeded ==> outcome == Committed && allUsers == WithRole(old(allUsers), uid, role)
      ensures !succeeded ==> outcome == Rethrown && allUsers == old(allUsers)
    {
      if succeeded {
        allUsers := WithRole(allUsers, uid, role);
        outcome := Committed;
      } else {
        outcome := Rethrown;
      }
    }

    function View(): AdminView
      reads this
    {
      RenderView(activeView, stats, applications)
    }
  }
}
