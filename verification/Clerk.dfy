/** Clerk lifecycle webhooks (internal/hub/clerk.go): rows guarded by the provider's
    time stamp, under any delivery order and any repetition. */
module Clerk {
  import opened Options
  import opened Sorting
  import opened Posture

  /** A decoded event; `at` is the provider's time in whole seconds, names are trimmed. */
  datatype Event =
    | OrganizationSaved(org: string, name: string, at: int)        // organization.created, organization.updated
    | OrganizationDeleted(org: string, at: int)
    | MembershipChanged(org: string, name: string, at: int)        // organizationMembership.*
    | UserSaved(user: string, blocked: bool, at: int)              // user.created, user.updated
    | UserDeleted(user: string, at: int)
    | Unknown
    | Malformed

  datatype OrgStatus = Active | Deleted
  datatype OrgRow = OrgRow(status: OrgStatus, at: int)
  datatype UserStatus = UserActive | UserRevoked | UserGone
  datatype UserRow = UserRow(status: UserStatus, at: Option<int>)

  /** A webhook call: the svix id and the event it carries. */
  datatype Delivery = Delivery(id: string, event: Event)

  datatype Reply = Accepted | Duplicate | Invalid

  datatype State = State(
    deliveries: set<string>, orgs: map<string, OrgRow>, organizations: map<string, string>, users: map<string, UserRow>)

  const EMPTY := State({}, map[], map[], map[])

  function NameOf(name: string): string { if name == "" then "Lens workspace" else name }

  // ----- What one event does to the row it concerns -----

  function OrgOf(e: Event): Option<string> {
    if e.OrganizationSaved? || e.OrganizationDeleted? || e.MembershipChanged? then Some(e.org) else None
  }

  /** The guarded write of an organization's state. A membership is ignored by an
      organization that was deleted at the same time or later. */
  function OrgAfter(row: Option<OrgRow>, e: Event): Option<OrgRow>
    requires OrgOf(e).Some?
  {
    if row.Some? && row.value.at > e.at then row
    else if e.MembershipChanged? && row.Some? && row.value.status == Deleted && e.at <= row.value.at then row
    else Some(OrgRow(if e.OrganizationDeleted? then Deleted else Active, e.at))
  }

  function UserOf(e: Event): Option<string> {
    if e.UserSaved? || e.UserDeleted? then Some(e.user) else None
  }

  function UserStatusOf(e: Event): UserStatus
    requires UserOf(e).Some?
  {
    if e.UserDeleted? then UserGone else if e.blocked then UserRevoked else UserActive
  }

  function UserAfter(row: Option<UserRow>, e: Event): Option<UserRow>
    requires UserOf(e).Some?
  {
    if row.Some? && row.value.at.Some? && row.value.at.value > e.at then row
    else Some(UserRow(UserStatusOf(e), Some(e.at)))
  }

  // ----- What an event writes -----

  /** A save sets the name and makes the organization active, a deletion removes it; a
      membership adds a missing organization and leaves the name of one that is there. Rows
      that are newer stay, and so does a deletion against a membership of the same time. */
  ghost predicate OrganizationWritten(st: State, e: Event, next: State) {
    match e
    case OrganizationSaved(org, name, at) =>
      if org in st.orgs && at < st.orgs[org].at then next.orgs == st.orgs && next.organizations == st.organizations
      else next.orgs == st.orgs[org := OrgRow(Active, at)] && next.organizations == st.organizations[org := if name == "" then "Lens workspace" else name]
    case OrganizationDeleted(org, at) =>
      if org in st.orgs && at < st.orgs[org].at then next.orgs == st.orgs && next.organizations == st.organizations
      else next.orgs == st.orgs[org := OrgRow(Deleted, at)] && next.organizations == st.organizations - {org}
    case MembershipChanged(org, name, at) =>
      if org in st.orgs && st.orgs[org].status == Deleted && at <= st.orgs[org].at then next.orgs == st.orgs && next.organizations == st.organizations
      else
        && (org in st.organizations ==> next.organizations == st.organizations)
        && (org !in st.organizations ==> next.organizations == st.organizations[org := if name == "" then "Lens workspace" else name])
        && (if org in st.orgs && at < st.orgs[org].at then next.orgs == st.orgs else next.orgs == st.orgs[org := OrgRow(Active, at)])
    case _ => next.orgs == st.orgs && next.organizations == st.organizations
  }

  /** A user is active, blocked or gone by the latest event. */
  ghost predicate UserWritten(st: State, e: Event, next: State) {
    match e
    case UserSaved(user, blocked, at) =>
      if user in st.users && st.users[user].at.Some? && at < st.users[user].at.value then next.users == st.users
      else next.users == st.users[user := UserRow(if blocked then UserRevoked else UserActive, Some(at))]
    case UserDeleted(user, at) =>
      if user in st.users && st.users[user].at.Some? && at < st.users[user].at.value then next.users == st.users
      else next.users == st.users[user := UserRow(UserGone, Some(at))]
    case _ => next.users == st.users
  }

  // ----- The handler -----

  class Desk {
    var deliveries: set<string>
    var orgs: map<string, OrgRow>
    var organizations: map<string, string>
    var users: map<string, UserRow>

    ghost function Rows(): State
      reads this
    {
      State(deliveries, orgs, organizations, users)
    }

    /** An organization row exists exactly while its state is active. */
    ghost predicate Valid()
      reads this
    {
      forall org :: org in organizations <==> org in orgs && orgs[org].status == Active
    }

    constructor ()
      ensures Rows() == EMPTY && Valid()
    {
      deliveries, orgs, organizations, users := {}, map[], map[], map[];
    }

    /** clerkWebhook after the signature check: one transaction. */
    method Receive(d: Delivery) returns (reply: Reply)
      requires Valid()
      modifies this
      ensures Valid()
      ensures Rows() == Received(old(Rows()), d)
      ensures reply == if d.id in old(deliveries) then Duplicate else if d.event == Malformed then Invalid else Accepted
      ensures reply != Accepted ==> Rows() == old(Rows())
      ensures reply == Accepted ==> deliveries == old(deliveries) + {d.id}
      ensures reply == Accepted ==> OrganizationWritten(old(Rows()), d.event, Rows()) && UserWritten(old(Rows()), d.event, Rows())
      ensures forall org :: OrgOf(d.event) != Some(org) ==>
                Get(orgs, org) == Get(old(orgs), org) && Get(organizations, org) == Get(old(organizations), org)
      ensures forall user :: UserOf(d.event) != Some(user) ==> Get(users, user) == Get(old(users), user)
      ensures forall org :: org in old(orgs) ==> org in orgs && old(orgs)[org].at <= orgs[org].at
      ensures forall user :: user in old(users) && old(users)[user].at.Some? ==>
                user in users && users[user].at.Some? && old(users)[user].at.value <= users[user].at.value
    {
      if d.id in deliveries {
        return Duplicate;
      }
      if d.event == Malformed {
        return Invalid;
      }
      deliveries := deliveries + {d.id};
      ApplyEvent(d.event);
      return Accepted;
    }

    /** applyClerkLifecycleEventAt. */
    method ApplyEvent(e: Event)
      requires Valid() && e != Malformed
      modifies this`orgs, this`organizations, this`users
      ensures Valid()
      ensures OrganizationWritten(old(Rows()), e, Rows()) && UserWritten(old(Rows()), e, Rows())
      ensures Rows() == Applied(old(Rows()), e)
    {
      match e
      case OrganizationSaved(org, name, at) =>
        if org in orgs && orgs[org].at > at {
          return;
        }
        orgs := orgs[org := OrgRow(Active, at)];
        organizations := organizations[org := NameOf(name)];
      case OrganizationDeleted(org, at) =>
        if org in orgs && orgs[org].at > at {
          return;
        }
        orgs := orgs[org := OrgRow(Deleted, at)];
        organizations := organizations - {org};
      case MembershipChanged(org, name, at) =>
        if org in orgs && orgs[org].status == Deleted && !(at > orgs[org].at) {
          return;
        }
        if org !in organizations {
          organizations := organizations[org := NameOf(name)];
        }
        if !(org in orgs && orgs[org].at > at) {
          orgs := orgs[org := OrgRow(Active, at)];
        }
      case UserSaved(user, blocked, at) =>
        if !(user in users && users[user].at.Some? && users[user].at.value > at) {
          users := users[user := UserRow(if blocked then UserRevoked else UserActive, Some(at))];
        }
      case UserDeleted(user, at) =>
        if !(user in users && users[user].at.Some? && users[user].at.value > at) {
          users := users[user := UserRow(UserGone, Some(at))];
        }
      case Unknown =>
    }
  }

  function Get<V>(m: map<string, V>, key: string): Option<V> {
    if key in m then Some(m[key]) else None
  }

  function OrganizationsAfter(st: State, e: Event): map<string, string>
    requires OrgOf(e).Some?
  {
    var before, after := Get(st.orgs, e.org), OrgAfter(Get(st.orgs, e.org), e);
    if e.MembershipChanged? then
      if before.Some? && before.value.status == Deleted && e.at <= before.value.at then st.organizations
      else if e.org in st.organizations then st.organizations
      else st.organizations[e.org := NameOf(e.name)]
    else if before.Some? && before.value.at > e.at then st.organizations
    else if e.OrganizationDeleted? then st.organizations - {e.org}
    else st.organizations[e.org := NameOf(e.name)]
  }

  function Applied(st: State, e: Event): State {
    if OrgOf(e).Some? then
      st.(orgs := st.orgs[e.org := OrgAfter(Get(st.orgs, e.org), e).value], organizations := OrganizationsAfter(st, e))
    else if UserOf(e).Some? then
      st.(users := st.users[e.user := UserAfter(Get(st.users, e.user), e).value])
    else st
  }

  function Received(st: State, d: Delivery): State {
    if d.id in st.deliveries || d.event == Malformed then st
    else Applied(st.(deliveries := st.deliveries + {d.id}), d.event)
  }

  function Run(ds: seq<Delivery>): State {
    if ds == [] then EMPTY else Received(Run(ds[..|ds| - 1]), ds[|ds| - 1])
  }

  /** An organization row exists exactly while its state is active, over every run. */
  lemma {:induction false} RowIffActive(ds: seq<Delivery>, org: string)
    ensures org in Run(ds).organizations <==> org in Run(ds).orgs && Run(ds).orgs[org].status == Active
  {
    if ds == [] {
    } else {
      RowIffActive(ds[..|ds| - 1], org);
    }
  }

  // ----- The state as a function of the set of deliveries -----

  /** A redelivery carries the same event. */
  ghost predicate Stable(ds: seq<Delivery>) {
    forall i, j :: 0 <= i < |ds| && 0 <= j < |ds| && ds[i].id == ds[j].id ==> ds[i] == ds[j]
  }

  ghost predicate Carries(ds: seq<Delivery>, e: Event) {
    exists i :: 0 <= i < |ds| && ds[i].event == e
  }

  ghost predicate OrgEvent(ds: seq<Delivery>, org: string, e: Event) {
    OrgOf(e) == Some(org) && Carries(ds, e)
  }

  ghost predicate UserEvent(ds: seq<Delivery>, user: string, e: Event) {
    UserOf(e) == Some(user) && Carries(ds, e)
  }

  /** Only the latest events of the organization matter: they set its time, a deletion
      among them beats memberships, and saves mean active. A deletion and a save at that
      same time leave the status to the delivery order. */
  ghost predicate OrgFinal(ds: seq<Delivery>, org: string, row: Option<OrgRow>) {
    match row
    case None => forall e :: !OrgEvent(ds, org, e)
    case Some(r) =>
      && (forall e :: OrgEvent(ds, org, e) ==> e.at <= r.at)
      && (exists e :: OrgEvent(ds, org, e) && e.at == r.at)
      && (r.status == Deleted ==> OrgEvent(ds, org, OrganizationDeleted(org, r.at)))
      && (r.status == Active && OrgEvent(ds, org, OrganizationDeleted(org, r.at)) ==> SavedAt(ds, org, r.at))
  }

  ghost predicate SavedAt(ds: seq<Delivery>, org: string, at: int) {
    exists name :: OrgEvent(ds, org, OrganizationSaved(org, name, at))
  }

  lemma EventStep(ds: seq<Delivery>, e: Event)
    requires ds != []
    ensures Carries(ds, e) <==> Carries(ds[..|ds| - 1], e) || ds[|ds| - 1].event == e
  {
    var init := ds[..|ds| - 1];
    if i :| 0 <= i < |ds| && ds[i].event == e { assert i < |init| ==> init[i] == ds[i]; }
    if i :| 0 <= i < |init| && init[i].event == e { assert ds[i].event == e; }
  }

  lemma {:induction false} Delivered(ds: seq<Delivery>, id: string)
    ensures id in Run(ds).deliveries <==> exists i :: 0 <= i < |ds| && ds[i].id == id && ds[i].event != Malformed
  {
    if ds == [] {
    } else {
      var init, last := ds[..|ds| - 1], ds[|ds| - 1];
      Delivered(init, id);
      Delivered(init, last.id);
      assert forall i :: 0 <= i < |init| ==> init[i] == ds[i];
      assert forall i :: 0 <= i < |ds| ==> i < |init| || ds[i] == last;
    }
  }

  /** A repeated or malformed delivery adds no event. */
  lemma Ignored(ds: seq<Delivery>)
    requires ds != [] && Stable(ds)
    ensures var init, last := ds[..|ds| - 1], ds[|ds| - 1];
      if last.id in Run(init).deliveries || last.event == Malformed
      then Run(ds) == Run(init) && (last.event == Malformed || Carries(init, last.event))
      else Run(ds) == Applied(Run(init).(deliveries := Run(init).deliveries + {last.id}), last.event)
  {
    var init, last := ds[..|ds| - 1], ds[|ds| - 1];
    Delivered(init, last.id);
    if last.id in Run(init).deliveries {
      var i :| 0 <= i < |init| && init[i].id == last.id;
      assert ds[i] == init[i] && ds[i].id == last.id;
    }
  }

  lemma {:induction false} OrgIsFinal(ds: seq<Delivery>, org: string)
    requires Stable(ds)
    ensures OrgFinal(ds, org, Get(Run(ds).orgs, org))
  {
    if ds == [] {
    } else {
      var init, last := ds[..|ds| - 1], ds[|ds| - 1];
      assert Stable(init);
      OrgIsFinal(init, org);
      Ignored(ds);
      forall e ensures OrgEvent(ds, org, e) <==> OrgEvent(init, org, e) || (OrgOf(e) == Some(org) && e == last.event) { EventStep(ds, e); }
      OrgStep(ds, org, Get(Run(init).orgs, org), Get(Run(ds).orgs, org));
    }
  }

  lemma OrgStep(ds: seq<Delivery>, org: string, before: Option<OrgRow>, after: Option<OrgRow>)
    requires ds != [] && OrgFinal(ds[..|ds| - 1], org, before)
    requires forall e :: OrgEvent(ds, org, e) <==> OrgEvent(ds[..|ds| - 1], org, e) || (OrgOf(e) == Some(org) && e == ds[|ds| - 1].event)
    requires var e := ds[|ds| - 1].event;
      if OrgOf(e) == Some(org) && !OrgEvent(ds[..|ds| - 1], org, e) then after == OrgAfter(before, e)
      else after == before || (OrgOf(e) == Some(org) && after == OrgAfter(before, e))
    ensures OrgFinal(ds, org, after)
  {
    var init, last := ds[..|ds| - 1], ds[|ds| - 1].event;
    assert forall at :: SavedAt(init, org, at) ==> SavedAt(ds, org, at) by {
      forall at | SavedAt(init, org, at) ensures SavedAt(ds, org, at) {
        var name :| OrgEvent(init, org, OrganizationSaved(org, name, at));
        assert OrgEvent(ds, org, OrganizationSaved(org, name, at));
      }
    }
    if OrgOf(last) == Some(org) {
      assert OrgEvent(ds, org, last);
      if last.OrganizationSaved? { assert SavedAt(ds, org, last.at) by { assert OrgEvent(ds, org, OrganizationSaved(org, last.name, last.at)); } }
    }
  }

  // ----- Every delivery order gives the same row, or not -----

  ghost predicate SameDeliveries(a: seq<Delivery>, b: seq<Delivery>) {
    Stable(a) && Stable(b) && Members(a) == Members(b)
  }

  lemma SameEvents(a: seq<Delivery>, b: seq<Delivery>, e: Event)
    requires Members(a) == Members(b)
    ensures Carries(a, e) <==> Carries(b, e)
  {
    if i :| 0 <= i < |a| && a[i].event == e { assert a[i] in Members(b); }
    if i :| 0 <= i < |b| && b[i].event == e { assert b[i] in Members(a); }
  }

  /** The latest events of the organization contain both a save and a deletion. */
  ghost predicate OrgTied(ds: seq<Delivery>, org: string, at: int) {
    && OrgEvent(ds, org, OrganizationDeleted(org, at)) && SavedAt(ds, org, at)
    && forall e :: OrgEvent(ds, org, e) ==> e.at <= at
  }

  lemma SameSaved(a: seq<Delivery>, b: seq<Delivery>, org: string, at: int)
    requires Members(a) == Members(b) && SavedAt(a, org, at)
    ensures SavedAt(b, org, at)
  {
    var name :| OrgEvent(a, org, OrganizationSaved(org, name, at));
    SameEvents(a, b, OrganizationSaved(org, name, at));
    assert OrgEvent(b, org, OrganizationSaved(org, name, at));
  }

  lemma OrgAgrees(a: seq<Delivery>, b: seq<Delivery>, org: string)
    requires SameDeliveries(a, b) && forall at :: !OrgTied(a, org, at)
    ensures Get(Run(a).orgs, org) == Get(Run(b).orgs, org)
  {
    OrgIsFinal(a, org);
    OrgIsFinal(b, org);
    forall e ensures OrgEvent(a, org, e) <==> OrgEvent(b, org, e) { SameEvents(a, b, e); }
    var x, y := Get(Run(a).orgs, org), Get(Run(b).orgs, org);
    if x.Some? && y.Some? {
      assert x.value.at == y.value.at;
      var at := x.value.at;
      assert !OrgTied(a, org, at);
      if SavedAt(b, org, at) { SameSaved(b, a, org, at); }
    }
  }

  function Without(ds: seq<Delivery>, d: Delivery): seq<Delivery> {
    if ds == [] then [] else
      Without(ds[..|ds| - 1], d) + if ds[|ds| - 1] == d then [] else [ds[|ds| - 1]]
  }

  lemma {:induction false} WithoutIs(ds: seq<Delivery>, d: Delivery)
    ensures Members(Without(ds, d)) == Members(ds) - {d}
  {
    if ds == [] {
    } else {
      var init, last := ds[..|ds| - 1], ds[|ds| - 1];
      WithoutIs(init, d);
      WithoutOneMore(init, last, d);
      assert ds == init + [last];
    }
  }

  lemma WithoutOneMore(init: seq<Delivery>, last: Delivery, d: Delivery)
    requires Members(Without(init, d)) == Members(init) - {d}
    ensures Members(Without(init + [last], d)) == Members(init + [last]) - {d}
  {
    hide Members;
    assert (init + [last])[..|init|] == init;
    MembersAppend(init, last);
    MembersAppend(Without(init, d), last);
    assert Without(init, d) + [] == Without(init, d);
  }

  /** The same deliveries in an order that ends with `d`. */
  function EndingWith(ds: seq<Delivery>, d: Delivery): seq<Delivery> {
    Without(ds, d) + [d]
  }

  lemma StableMembers(a: seq<Delivery>, b: seq<Delivery>)
    requires Stable(a) && Members(b) <= Members(a)
    ensures Stable(b)
  {
    forall i, j | 0 <= i < |b| && 0 <= j < |b| && b[i].id == b[j].id ensures b[i] == b[j] {
      assert b[i] in Members(b) && b[j] in Members(b);
      assert b[i] in a && b[j] in a;
    }
  }

  lemma EndingWithIs(ds: seq<Delivery>, d: Delivery)
    requires Stable(ds) && d in ds && d.event != Malformed
    ensures SameDeliveries(ds, EndingWith(ds, d))
    ensures Run(EndingWith(ds, d)) == Applied(Run(Without(ds, d)).(deliveries := Run(Without(ds, d)).deliveries + {d.id}), d.event)
    ensures Stable(Without(ds, d)) && forall e :: Carries(Without(ds, d), e) ==> Carries(ds, e)
  {
    var rest := Without(ds, d);
    WithoutIs(ds, d);
    MembersAppend(rest, d);
    assert d in Members(ds);
    StableMembers(ds, rest + [d]);
    StableMembers(ds, rest);
    assert (rest + [d])[..|rest|] == rest;
    forall i | 0 <= i < |rest| ensures rest[i] in ds && rest[i].id != d.id { assert rest[i] in Members(rest); }
    Delivered(rest, d.id);
    forall e | Carries(rest, e) ensures Carries(ds, e) {
      var i :| 0 <= i < |rest| && rest[i].event == e;
      var j :| 0 <= j < |ds| && ds[j] == rest[i];
    }
  }

  lemma OrgDisagrees(ds: seq<Delivery>, org: string, at: int) returns (a: seq<Delivery>, b: seq<Delivery>)
    requires Stable(ds) && OrgTied(ds, org, at)
    ensures SameDeliveries(ds, a) && SameDeliveries(ds, b)
    ensures Get(Run(a).orgs, org) == Some(OrgRow(Active, at)) && Get(Run(b).orgs, org) == Some(OrgRow(Deleted, at))
  {
    var name :| OrgEvent(ds, org, OrganizationSaved(org, name, at));
    var i :| 0 <= i < |ds| && ds[i].event == OrganizationSaved(org, name, at);
    var j :| 0 <= j < |ds| && ds[j].event == OrganizationDeleted(org, at);
    a, b := EndingWith(ds, ds[i]), EndingWith(ds, ds[j]);
    LastWins(ds, ds[i], org, at);
    LastWins(ds, ds[j], org, at);
  }

  /** With a save or a deletion at the latest time at its end an order ends in what that means. */
  lemma LastWins(ds: seq<Delivery>, d: Delivery, org: string, at: int)
    requires Stable(ds) && d in ds && OrgOf(d.event) == Some(org) && !d.event.MembershipChanged? && d.event.at == at
    requires forall e :: OrgEvent(ds, org, e) ==> e.at <= at
    ensures SameDeliveries(ds, EndingWith(ds, d))
    ensures Get(Run(EndingWith(ds, d)).orgs, org) == Some(OrgRow(if d.event.OrganizationDeleted? then Deleted else Active, at))
  {
    hide Run, Carries, OrgFinal, Without, EndingWith, SameDeliveries, Stable;
    EndingWithIs(ds, d);
    OrgIsFinal(Without(ds, d), org);
    NotLater(Without(ds, d), ds, org, at);
  }

  lemma NotLater(part: seq<Delivery>, ds: seq<Delivery>, org: string, at: int)
    requires forall e :: Carries(part, e) ==> Carries(ds, e)
    requires forall e :: OrgEvent(ds, org, e) ==> e.at <= at
    requires OrgFinal(part, org, Get(Run(part).orgs, org))
    ensures org in Run(part).orgs ==> Run(part).orgs[org].at <= at
  {
    if org in Run(part).orgs {
      var e :| OrgEvent(part, org, e) && e.at == Run(part).orgs[org].at;
      assert OrgEvent(ds, org, e);
    }
  }

  /** All delivery orders of the same deliveries agree on an organization's state iff its
      latest events do not contain both a save and a deletion; in particular whenever
      event times are distinct. */
  lemma OrgConvergesIff(ds: seq<Delivery>, org: string)
    requires Stable(ds)
    ensures (forall other :: SameDeliveries(ds, other) ==> Get(Run(other).orgs, org) == Get(Run(ds).orgs, org))
       <==> (forall at :: !OrgTied(ds, org, at))
  {
    if forall at :: !OrgTied(ds, org, at) {
      forall other | SameDeliveries(ds, other) ensures Get(Run(other).orgs, org) == Get(Run(ds).orgs, org) {
        OrgAgrees(ds, other, org);
      }
    } else {
      var at :| OrgTied(ds, org, at);
      var a, b := OrgDisagrees(ds, org, at);
    }
  }

  // ----- Users -----

  ghost predicate UserFinal(ds: seq<Delivery>, user: string, row: Option<UserRow>) {
    match row
    case None => forall e :: !UserEvent(ds, user, e)
    case Some(r) =>
      && r.at.Some?
      && (forall e :: UserEvent(ds, user, e) ==> e.at <= r.at.value)
      && (exists e :: UserEvent(ds, user, e) && e.at == r.at.value && UserStatusOf(e) == r.status)
  }

  lemma {:induction false} UserIsFinal(ds: seq<Delivery>, user: string)
    requires Stable(ds)
    ensures UserFinal(ds, user, Get(Run(ds).users, user))
  {
    if ds == [] {
    } else {
      var init, last := ds[..|ds| - 1], ds[|ds| - 1];
      assert Stable(init);
      UserIsFinal(init, user);
      Ignored(ds);
      forall e ensures UserEvent(ds, user, e) <==> UserEvent(init, user, e) || (UserOf(e) == Some(user) && e == last.event) { EventStep(ds, e); }
      var before, after := Get(Run(init).users, user), Get(Run(ds).users, user);
      if UserOf(last.event) == Some(user) {
        assert (after == before && UserEvent(init, user, last.event)) || after == UserAfter(before, last.event);
        UserStep(init, ds, user, last.event, before, after);
      } else {
        SameUser(init, ds, user, before);
      }
    }
  }

  lemma SameUser(init: seq<Delivery>, ds: seq<Delivery>, user: string, row: Option<UserRow>)
    requires UserFinal(init, user, row) && forall e :: UserEvent(ds, user, e) <==> UserEvent(init, user, e)
    ensures UserFinal(ds, user, row)
  {
  }

  lemma UserStep(init: seq<Delivery>, ds: seq<Delivery>, user: string, last: Event, before: Option<UserRow>, after: Option<UserRow>)
    requires UserFinal(init, user, before) && UserOf(last) == Some(user)
    requires forall e :: UserEvent(ds, user, e) <==> UserEvent(init, user, e) || (UserOf(e) == Some(user) && e == last)
    requires (after == before && UserEvent(init, user, last)) || after == UserAfter(before, last)
    ensures UserFinal(ds, user, after)
  {
    assert UserEvent(ds, user, last);
    if before.Some? {
      var e :| UserEvent(init, user, e) && e.at == before.value.at.value && UserStatusOf(e) == before.value.status;
      assert UserEvent(ds, user, e);
    }
  }

  ghost predicate Latest(ds: seq<Delivery>, user: string, e: Event) {
    UserEvent(ds, user, e) && forall f :: UserEvent(ds, user, f) ==> f.at <= e.at
  }

  /** Two latest events of the user mean different statuses. */
  ghost predicate UserTied(ds: seq<Delivery>, user: string, e: Event, f: Event) {
    Latest(ds, user, e) && Latest(ds, user, f) && UserStatusOf(e) != UserStatusOf(f)
  }

  lemma UserAgrees(a: seq<Delivery>, b: seq<Delivery>, user: string)
    requires SameDeliveries(a, b) && forall e, f :: !UserTied(a, user, e, f)
    ensures Get(Run(a).users, user) == Get(Run(b).users, user)
  {
    UserIsFinal(a, user);
    UserIsFinal(b, user);
    forall e ensures UserEvent(a, user, e) <==> UserEvent(b, user, e) { SameEvents(a, b, e); }
    var x, y := Get(Run(a).users, user), Get(Run(b).users, user);
    if x.Some? && y.Some? {
      var e :| UserEvent(a, user, e) && e.at == x.value.at.value && UserStatusOf(e) == x.value.status;
      var f :| UserEvent(b, user, f) && f.at == y.value.at.value && UserStatusOf(f) == y.value.status;
      assert UserEvent(a, user, f) && UserEvent(b, user, e);
      assert !UserTied(a, user, e, f);
    }
  }

  lemma LastWriteWins(ds: seq<Delivery>, user: string, e: Event) returns (order: seq<Delivery>)
    requires Stable(ds) && Latest(ds, user, e)
    ensures SameDeliveries(ds, order) && Get(Run(order).users, user) == Some(UserRow(UserStatusOf(e), Some(e.at)))
  {
    var i :| 0 <= i < |ds| && ds[i].event == e;
    order := EndingWith(ds, ds[i]);
    EndingWithIs(ds, ds[i]);
    var rest := Without(ds, ds[i]);
    UserIsFinal(rest, user);
    if user in Run(rest).users {
      var f :| UserEvent(rest, user, f) && f.at == Run(rest).users[user].at.value;
      assert UserEvent(ds, user, f);
    }
  }

  /** All delivery orders agree on a user's status and time iff the user's latest events
      all mean the same status; in particular whenever event times are distinct. */
  lemma UserConvergesIff(ds: seq<Delivery>, user: string)
    requires Stable(ds)
    ensures (forall other :: SameDeliveries(ds, other) ==> Get(Run(other).users, user) == Get(Run(ds).users, user))
       <==> (forall e, f :: !UserTied(ds, user, e, f))
  {
    if forall e, f :: !UserTied(ds, user, e, f) {
      forall other | SameDeliveries(ds, other) ensures Get(Run(other).users, user) == Get(Run(ds).users, user) {
        UserAgrees(ds, other, user);
      }
    } else {
      var e, f :| UserTied(ds, user, e, f);
      var a := LastWriteWins(ds, user, e);
      var b := LastWriteWins(ds, user, f);
    }
  }

  ghost predicate Timed(ds: seq<Delivery>, i: int) {
    0 <= i < |ds| && (OrgOf(ds[i].event).Some? || UserOf(ds[i].event).Some?)
  }

  ghost predicate DistinctTimes(ds: seq<Delivery>) {
    forall i, j :: Timed(ds, i) && Timed(ds, j) && ds[i].event.at == ds[j].event.at ==> ds[i].event == ds[j].event
  }

  lemma OrgTieCoincides(ds: seq<Delivery>, org: string, at: int)
    requires OrgTied(ds, org, at)
    ensures !DistinctTimes(ds)
  {
    var name :| OrgEvent(ds, org, OrganizationSaved(org, name, at));
    var i :| 0 <= i < |ds| && ds[i].event == OrganizationSaved(org, name, at);
    var j :| 0 <= j < |ds| && ds[j].event == OrganizationDeleted(org, at);
    assert Timed(ds, i) && Timed(ds, j);
  }

  lemma UserTieCoincides(ds: seq<Delivery>, user: string, e: Event, f: Event)
    requires UserTied(ds, user, e, f)
    ensures !DistinctTimes(ds)
  {
    var i :| 0 <= i < |ds| && ds[i].event == e;
    var j :| 0 <= j < |ds| && ds[j].event == f;
    assert Timed(ds, i) && Timed(ds, j);
  }

  /** Events with distinct times end in one state, whatever the delivery order and the
      repetitions. */
  lemma DistinctTimesConverge(ds: seq<Delivery>, other: seq<Delivery>)
    requires SameDeliveries(ds, other) && DistinctTimes(ds)
    ensures Run(ds).orgs == Run(other).orgs && Run(ds).users == Run(other).users
  {
    forall org, at ensures !OrgTied(ds, org, at) { if OrgTied(ds, org, at) { OrgTieCoincides(ds, org, at); } }
    forall user, e, f ensures !UserTied(ds, user, e, f) { if UserTied(ds, user, e, f) { UserTieCoincides(ds, user, e, f); } }
    forall org ensures Get(Run(ds).orgs, org) == Get(Run(other).orgs, org) { OrgAgrees(ds, other, org); }
    forall user ensures Get(Run(ds).users, user) == Get(Run(other).users, user) { UserAgrees(ds, other, user); }
    SameGets(Run(ds).orgs, Run(other).orgs);
    SameGets(Run(ds).users, Run(other).users);
  }

  lemma SameGets<V>(a: map<string, V>, b: map<string, V>)
    requires forall key :: Get(a, key) == Get(b, key)
    ensures a == b
  {
    forall key ensures (key in a <==> key in b) && (key in a ==> a[key] == b[key]) {
      assert Get(a, key) == Get(b, key);
    }
  }
}
