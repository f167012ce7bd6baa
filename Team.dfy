/** The team page: the team built from the user store with its randomly drawn
    statistics, the search and role filter, the counts, and inviting a member. */
module TeamPage {
  import opened Json
  import opened Text
  import opened Seqs
  import opened Records
  import opened Constants
  import opened UserService

  /** The three `Math.floor(Math.random() * n)` readings taken for one team
      member; each is reduced to its range `0 .. n-1` where it is used. */
  datatype Draw = Draw(sales: nat, earnings: nat, subMembers: nat)

  predicate HasRole(u: Record, role: string) {
    FieldIs(u, "role", Str(role))
  }

  predicate NotAdmin(u: Record) {
    !HasRole(u, "admin")
  }

  /** Every sub-member user of the store, as the values stored in `subMembers`. */
  function SubMemberPool(data: seq<Record>): (pool: seq<Value>)
    ensures |pool| == Count(data, u => HasRole(u, "sub-member"))
  {
    var subs := Filter(data, u => HasRole(u, "sub-member"));
    seq(|subs|, i requires 0 <= i < |subs| => Obj(subs[i]))
  }

  function Min(a: nat, b: nat): nat {
    if a <= b then a else b
  }

  /** The fields `loadTeam` adds to each user. */
  const Statistics: set<string> := {"totalSales", "totalEarnings", "subMembers"}

  /** A whole number from `lo` to `hi`. */
  predicate WholeIn(v: Value, lo: int, hi: int) {
    v.Num? && v.n == v.n.Floor as real && lo <= v.n.Floor <= hi
  }

  /** One team member: the user's own fields, then sales in 1..20, earnings in
      50000..549999 and, for a member, the first 1 to 3 sub-members. */
  function WithHierarchy(m: Record, pool: seq<Value>, d: Draw): (t: Record)
    ensures t.Keys == m.Keys + Statistics
    ensures forall k :: k in m && k !in Statistics ==> t[k] == m[k]
    ensures WholeIn(t["totalSales"], 1, 20) && WholeIn(t["totalEarnings"], 50000, 549999)
    ensures t["subMembers"].Arr?
    ensures var subs := t["subMembers"].items;
      && |subs| <= |pool| && subs == pool[..|subs|]
      && (HasRole(m, "member") ==> |subs| == Min(d.subMembers % 3 + 1, |pool|))
      && (!HasRole(m, "member") ==> subs == [])
  {
    var subs := if HasRole(m, "member") then pool[..Min(d.subMembers % 3 + 1, |pool|)] else [];
    Spread(m, map["totalSales" := Num((d.sales % 20 + 1) as real),
                  "totalEarnings" := Num((d.earnings % 500000 + 50000) as real),
                  "subMembers" := Arr(subs)])
  }

  /** `loadTeam`: every user who is not an admin, in store order, each given
      the statistics of its own draw. */
  function LoadTeam(data: seq<Record>, draws: nat -> Draw): (team: seq<Record>)
    ensures |team| == Count(data, NotAdmin)
    ensures forall i :: 0 <= i < |team| ==> NotAdmin(team[i])
    ensures forall i :: 0 <= i < |team| ==>
      team[i] == WithHierarchy(Filter(data, NotAdmin)[i], SubMemberPool(data), draws(i))
  {
    var members := Filter(data, NotAdmin);
    var pool := SubMemberPool(data);
    var team := seq(|members|, i requires 0 <= i < |members| => WithHierarchy(members[i], pool, draws(i)));
    assert forall i :: 0 <= i < |team| ==> team[i] == WithHierarchy(members[i], pool, draws(i));
    assert forall i :: 0 <= i < |team| ==> NotAdmin(team[i]) by {
      forall i | 0 <= i < |team| ensures NotAdmin(team[i]) {
        assert NotAdmin(members[i]) && "role" !in Statistics;
        assert "role" in team[i] <==> "role" in members[i];
      }
    }
    team
  }

  /** Every value listed under `subMembers` is a sub-member user of the store. */
  lemma SubMembersAreSubMembers(data: seq<Record>, draws: nat -> Draw, i: nat, j: nat)
    requires i < |LoadTeam(data, draws)|
    requires j < |LoadTeam(data, draws)[i]["subMembers"].items|
    ensures var v := LoadTeam(data, draws)[i]["subMembers"].items[j];
      v.Obj? && HasRole(v.fields, "sub-member") && v.fields in data
  {
    var subs := Filter(data, u => HasRole(u, "sub-member"));
    var v := LoadTeam(data, draws)[i]["subMembers"].items[j];
    assert v == SubMemberPool(data)[j] == Obj(subs[j]);
    FilterIsSubseq(data, u => HasRole(u, "sub-member"));
    FilterMultiplicity(data, u => HasRole(u, "sub-member"), subs[j]);
  }

  /** A member of the team matches a search term in its name or e-mail. */
  predicate Matches(m: Record, term: string) {
    ContainsFolded(TextOf(Field(m, "name")), term) || ContainsFolded(TextOf(Field(m, "email")), term)
  }

  function SearchCondition(term: string): Record -> bool {
    m => Matches(m, term)
  }

  function RoleCondition(role: string): Record -> bool {
    m => HasRole(m, role)
  }

  /** `filterTeam`: the search term, when not empty, then the role, when not empty. */
  function FilterTeam(team: seq<Record>, term: string, role: string): seq<Record> {
    Stage(Stage(team, term != "", SearchCondition(term)), role != "", RoleCondition(role))
  }

  predicate Shown(m: Record, term: string, role: string) {
    (term != "" ==> Matches(m, term)) && (role != "" ==> HasRole(m, role))
  }

  /** The two stages are the one filter `Shown`, in team order. */
  lemma FilterTeamExact(team: seq<Record>, term: string, role: string)
    ensures FilterTeam(team, term, role) == Filter(team, m => Shown(m, term, role))
  {
    var p0 := (m: Record) => true;
    var p1 := m => (term != "" ==> Matches(m, term));
    FilterAll(team, p0);
    StageCompose(team, p0, term != "", SearchCondition(term), p1);
    StageCompose(team, p1, role != "", RoleCondition(role), m => Shown(m, term, role));
  }

  /** The filtered team keeps team order, and with both filters empty it is
      the whole team. */
  lemma FilterTeamOrder(team: seq<Record>, term: string, role: string)
    ensures IsSubseq(FilterTeam(team, term, role), team)
    ensures term == "" && role == "" ==> FilterTeam(team, term, role) == team
  {
    FilterTeamExact(team, term, role);
    FilterIsSubseq(team, m => Shown(m, term, role));
    if term == "" && role == "" {
      FilterAll(team, m => Shown(m, term, role));
    }
  }

  /** The "Team Members" and "Sub Members" cards never add up to more than
      the "Total Members" card. */
  lemma RoleCountsWithinTeam(team: seq<Record>)
    ensures Count(team, RoleCondition("member")) + Count(team, RoleCondition("sub-member")) <= |team|
  {
    CountDisjoint(team, RoleCondition("member"), RoleCondition("sub-member"));
  }

  /** The roles offered in the invite form: every role but admin. */
  function InviteRoles(): (roles: seq<RoleOption>)
    ensures forall i :: 0 <= i < |roles| ==> roles[i].id != "admin" && roles[i] in UserRoles
    ensures forall r :: r in UserRoles && r.id != "admin" ==> r in roles
  {
    var roles := Filter(UserRoles, (r: RoleOption) => r.id != "admin");
    FilterIsSubseq(UserRoles, (r: RoleOption) => r.id != "admin");
    forall r | r in UserRoles && r.id != "admin" ensures r in roles {
      FilterComplete(UserRoles, (r: RoleOption) => r.id != "admin", r);
    }
    forall i | 0 <= i < |roles| ensures roles[i] in UserRoles {
      FilterMultiplicity(UserRoles, (r: RoleOption) => r.id != "admin", roles[i]);
    }
    roles
  }

  datatype InviteForm = InviteForm(name: string, email: string, phone: string, role: string)

  /** The form as it opens, and as it is reset after an invitation. */
  const BlankInvite := InviteForm("", "", "", "sub-member")

  /** What `handleInvite` passes to `create`: the form, then the new member's
      starting statistics. */
  function InviteFields(form: InviteForm, now: string): Record {
    map["name" := Str(form.name), "email" := Str(form.email), "phone" := Str(form.phone),
        "role" := Str(form.role), "joinedDate" := Str(now), "isActive" := Bool(true),
        "totalSales" := Num(0.0), "totalEarnings" := Num(0.0), "subMembers" := Arr([])]
  }


  /** The stored invitee: the next `Id`, the form's fields, the join time,
      active, with no sales, earnings or sub-members. */
  lemma InvitedMemberShape(users: seq<Record>, form: InviteForm, now: string)
    requires |users| > 0 && NumericIds(users)
    ensures var r := NewRecord(users, InviteFields(form, now), map["joinedDate" := Str(now), "isActive" := Bool(true)]);
      && r["Id"] == Num(NextId(users))
      && r["name"] == Str(form.name) && r["email"] == Str(form.email)
      && r["phone"] == Str(form.phone) && r["role"] == Str(form.role)
      && r["joinedDate"] == Str(now) && r["isActive"] == Bool(true)
      && r["totalSales"] == Num(0.0) && r["totalEarnings"] == Num(0.0) && r["subMembers"] == Arr([])
  {
    var f := InviteFields(form, now);
    assert "Id" !in f;
    assert f["name"] == Str(form.name) && f["email"] == Str(form.email);
    assert f["phone"] == Str(form.phone) && f["role"] == Str(form.role);
    assert f["totalSales"] == Num(0.0) && f["totalEarnings"] == Num(0.0) && f["subMembers"] == Arr([]);
  }

  /** `handleInvite`: stores the new member, appends it to the team and resets
      the form. */
  method Invite(users: UserStore, team: seq<Record>, form: InviteForm, now: string)
    returns (teamAfter: seq<Record>, formAfter: InviteForm)
    requires users.Valid() && |users.users| > 0
    modifies users
    ensures users.Valid()
    ensures var created := NewRecord(old(users.users), InviteFields(form, now),
                                     map["joinedDate" := Str(now), "isActive" := Bool(true)]);
      users.users == old(users.users) + [created] && teamAfter == team + [created]
    ensures formAfter == BlankInvite
  {
    var created := users.Create(InviteFields(form, now), now);
    teamAfter := team + [created];
    formAfter := BlankInvite;
  }

  /** After an invitation the list on screen gains the new member exactly when
      it passes the current search and role filter. */
  lemma InviteShowsNewMemberIfShown(team: seq<Record>, created: Record, term: string, role: string)
    ensures FilterTeam(team + [created], term, role)
         == FilterTeam(team, term, role) + (if Shown(created, term, role) then [created] else [])
  {
    FilterTeamExact(team + [created], term, role);
    FilterTeamExact(team, term, role);
    FilterAppend(team, created, m => Shown(m, term, role));
  }
}
