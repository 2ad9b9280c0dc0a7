/** The family registry (src/components/modules/DataCollection.tsx): families with a
    denormalised `total_members` counter, their members, the per-family member cache and
    the expanded family of the list. */
module DataCollection {
  import opened Text
  import opened Numbers
  import opened Lists

  /** A row of `families`. Columns the modelled code never reads are omitted. */
  datatype Family = Family(id: string, familyName: string, rootNo: Option<string>, totalMembers: Option<int>)

  /** The columns of a `family_members` row that the member dialog writes. */
  datatype MemberData = MemberData(
    familyId: string,
    name: string,
    age: Option<int>,
    gender: Option<string>,
    relationship: Option<string>,
    occupation: Option<string>)

  /** A row of `family_members`. */
  datatype Member = Member(id: string, data: MemberData)

  /** The member dialog's text fields. */
  datatype MemberForm = MemberForm(name: string, age: string, gender: string, relationship: string, occupation: string)

  const EmptyMemberForm := MemberForm("", "", "", "", "")

  // Members

  /** `age ? parseInt(age) : null`: an empty field is null, and so is text without digits
      (NaN is stored as null). */
  function MemberAge(field: string): (r: Option<int>)
    ensures field == "" ==> r.None?
    ensures field != "" ==> r == ParseInt(field)
  {
    if field == "" then None else ParseInt(field)
  }

  /** The row `handleMemberSubmit` writes for the selected family. */
  function MemberColumns(f: MemberForm, familyId: string): MemberData
  {
    MemberData(familyId, f.name, MemberAge(f.age), Some(f.gender), Some(f.relationship), Some(f.occupation))
  }

  /** `handleEditMember`: fills the dialog from a member, nulls becoming "". */
  function MemberEditForm(m: Member): MemberForm
  {
    MemberForm(
      m.data.name,
      if m.data.age.Some? then ShowInt(m.data.age.value) else "",
      m.data.gender.GetOr(""),
      m.data.relationship.GetOr(""),
      m.data.occupation.GetOr(""))
  }

  /** Saving the edit dialog unchanged writes the member back: same family, name and age;
      a null text column comes back as "", and any other comes back as it was. */
  lemma MemberEditRoundTrip(m: Member)
    ensures var d := MemberColumns(MemberEditForm(m), m.data.familyId);
      && d.familyId == m.data.familyId && d.name == m.data.name && d.age == m.data.age
      && d.gender.Some? && d.gender.value == m.data.gender.GetOr("")
      && d.relationship.Some? && d.relationship.value == m.data.relationship.GetOr("")
      && d.occupation.Some? && d.occupation.value == m.data.occupation.GetOr("")
  {
    if m.data.age.Some? {
      ParseIntShowInt(m.data.age.value);
    }
  }

  /** The members of family `fid`, in table order: what `loadMembers` stores for it. */
  function MembersOf(rows: seq<Member>, fid: string): (r: seq<Member>)
    ensures forall m :: m in r <==> m in rows && m.data.familyId == fid
  {
    Filter((m: Member) => m.data.familyId == fid, rows)
  }

  /** The table after deleting the member with id `id`. */
  function WithoutMember(rows: seq<Member>, id: string): (r: seq<Member>)
    ensures forall m :: m in r <==> m in rows && m.id != id
  {
    Filter((m: Member) => m.id != id, rows)
  }

  /** The table after updating the member with id `id` to `data`. */
  function UpdateMember(rows: seq<Member>, id: string, data: MemberData): (r: seq<Member>)
    ensures |r| == |rows|
    ensures forall i :: 0 <= i < |rows| ==> r[i] == if rows[i].id == id then Member(id, data) else rows[i]
  {
    if rows == [] then []
    else [if rows[0].id == id then Member(id, data) else rows[0]] + UpdateMember(rows[1..], id, data)
  }

  /** No two rows share an id. */
  predicate UniqueIds(rows: seq<Member>) {
    forall i, j :: 0 <= i < j < |rows| ==> rows[i].id != rows[j].id
  }

  // The `total_members` counter

  /** Every counter that is set is non-negative. */
  predicate CountersNonNegative(fams: map<string, Family>) {
    forall k :: k in fams ==> fams[k].totalMembers.GetOr(0) >= 0
  }

  /** Every family's counter equals the number of its members in the table (null counts as 0). */
  predicate Counted(fams: map<string, Family>, rows: seq<Member>) {
    forall k :: k in fams ==> fams[k].totalMembers.GetOr(0) == |MembersOf(rows, k)|
  }

  /** The counter update after adding a member: a family in the loaded list gets its old
      count, null as 0, plus one; a family not in the list is not written. */
  function CounterAfterAdd(fams: map<string, Family>, fid: string): (r: map<string, Family>)
    ensures r.Keys == fams.Keys
    ensures forall k :: k in fams && k != fid ==> r[k] == fams[k]
    ensures fid in fams ==> r[fid] == fams[fid].(totalMembers := Some(fams[fid].totalMembers.GetOr(0) + 1))
  {
    if fid in fams then fams[fid := fams[fid].(totalMembers := Some(fams[fid].totalMembers.GetOr(0) + 1))] else fams
  }

  /** The counter update after deleting a member: only a counter above 0 goes down by one. */
  function CounterAfterDelete(fams: map<string, Family>, fid: string): (r: map<string, Family>)
    ensures r.Keys == fams.Keys
    ensures forall k :: k in fams && k != fid ==> r[k] == fams[k]
    ensures fid in fams && fams[fid].totalMembers.GetOr(0) > 0 ==>
      r[fid] == fams[fid].(totalMembers := Some(fams[fid].totalMembers.value - 1))
    ensures fid in fams && fams[fid].totalMembers.GetOr(0) <= 0 ==> r[fid] == fams[fid]
  {
    if fid in fams && fams[fid].totalMembers.Some? && fams[fid].totalMembers.value > 0 then
      fams[fid := fams[fid].(totalMembers := Some(fams[fid].totalMembers.value - 1))]
    else fams
  }

  /** Adding and deleting members never makes a counter negative. */
  lemma CountersStayNonNegative(fams: map<string, Family>, fid: string)
    requires CountersNonNegative(fams)
    ensures CountersNonNegative(CounterAfterAdd(fams, fid))
    ensures CountersNonNegative(CounterAfterDelete(fams, fid))
  {
    var added := CounterAfterAdd(fams, fid);
    var deleted := CounterAfterDelete(fams, fid);
    forall k | k in added ensures added[k].totalMembers.GetOr(0) >= 0 {
      assert k in fams;
    }
    forall k | k in deleted ensures deleted[k].totalMembers.GetOr(0) >= 0 {
      assert k in fams;
    }
  }

  /** Adding a member and deleting it again restores the counter; a null counter comes back as 0. */
  lemma AddThenDeleteRestoresCounter(fams: map<string, Family>, fid: string)
    requires CountersNonNegative(fams)
    ensures var r := CounterAfterDelete(CounterAfterAdd(fams, fid), fid);
      && r.Keys == fams.Keys
      && (forall k :: k in fams && k != fid ==> r[k] == fams[k])
      && (fid in fams ==> r[fid] == fams[fid].(totalMembers := Some(fams[fid].totalMembers.GetOr(0))))
  {
    if fid in fams {
      var added := CounterAfterAdd(fams, fid);
      assert added[fid].totalMembers.GetOr(0) > 0;
    }
  }

  /** Appending a member of family `fid` adds one to `fid`'s members and nothing to others'. */
  lemma MembersOfAppend(rows: seq<Member>, m: Member, k: string)
    ensures |MembersOf(rows + [m], k)| == |MembersOf(rows, k)| + (if m.data.familyId == k then 1 else 0)
  {
    FilterAppend((x: Member) => x.data.familyId == k, rows, [m]);
  }

  lemma MembersOfCons(x: Member, rest: seq<Member>, k: string)
    ensures |MembersOf([x] + rest, k)| == |MembersOf(rest, k)| + (if x.data.familyId == k then 1 else 0)
  {
    FilterAppend((m: Member) => m.data.familyId == k, [x], rest);
    assert [x][1..] == [];
  }

  lemma WithoutMemberCons(x: Member, rest: seq<Member>, id: string)
    ensures WithoutMember([x] + rest, id) == (if x.id != id then [x] else []) + WithoutMember(rest, id)
  {
    FilterAppend((m: Member) => m.id != id, [x], rest);
    assert [x][1..] == [];
  }

  /** Deleting the one row with a given id removes one member from that row's family only. */
  lemma {:induction false} MembersOfWithout(rows: seq<Member>, i: int, k: string)
    requires UniqueIds(rows) && 0 <= i < |rows|
    ensures |MembersOf(WithoutMember(rows, rows[i].id), k)| + (if rows[i].data.familyId == k then 1 else 0)
      == |MembersOf(rows, k)|
  {
    var id := rows[i].id;
    var rest := rows[1..];
    assert rows == [rows[0]] + rest;
    WithoutMemberCons(rows[0], rest, id);
    MembersOfCons(rows[0], rest, k);
    if i == 0 {
      assert forall j :: 0 <= j < |rest| ==> rest[j].id != id;
      FilterAll((x: Member) => x.id != id, rest);
      assert WithoutMember(rows, id) == rest;
    } else {
      assert rows[0].id != id;
      assert UniqueIds(rest);
      assert rest[i - 1] == rows[i];
      MembersOfWithout(rest, i - 1, k);
      MembersOfCons(rows[0], WithoutMember(rest, id), k);
    }
  }

  /** Updating a member without moving it to another family keeps every family's member count. */
  lemma {:induction false} MembersOfUpdate(rows: seq<Member>, id: string, data: MemberData, k: string)
    requires forall m :: m in rows && m.id == id ==> m.data.familyId == data.familyId
    ensures |MembersOf(UpdateMember(rows, id, data), k)| == |MembersOf(rows, k)|
  {
    if rows != [] {
      assert rows == [rows[0]] + rows[1..];
      MembersOfUpdate(rows[1..], id, data, k);
    }
  }

  /** Adding a member to a family keeps the counters equal to the member counts. */
  lemma AddKeepsCounted(fams: map<string, Family>, rows: seq<Member>, m: Member)
    requires Counted(fams, rows)
    ensures Counted(CounterAfterAdd(fams, m.data.familyId), rows + [m])
  {
    forall k | k in fams {
      MembersOfAppend(rows, m, k);
    }
  }

  /** Deleting a member keeps the counters equal to the member counts. */
  lemma DeleteKeepsCounted(fams: map<string, Family>, rows: seq<Member>, m: Member)
    requires Counted(fams, rows) && UniqueIds(rows) && m in rows
    ensures Counted(CounterAfterDelete(fams, m.data.familyId), WithoutMember(rows, m.id))
  {
    var i :| 0 <= i < |rows| && rows[i] == m;
    forall k | k in fams {
      MembersOfWithout(rows, i, k);
    }
  }

  /** Editing a member of its own family keeps the counters equal to the member counts. */
  lemma EditKeepsCounted(fams: map<string, Family>, rows: seq<Member>, m: Member, data: MemberData)
    requires Counted(fams, rows) && UniqueIds(rows) && m in rows && data.familyId == m.data.familyId
    ensures Counted(fams, UpdateMember(rows, m.id, data))
  {
    forall k | k in fams {
      MembersOfUpdate(rows, m.id, data, k);
    }
  }

  // The family list

  /** `filteredFamilies`: the lower-cased term occurs in the lower-cased family name, or the
      family has a root number in which it occurs. */
  predicate MatchesFamilySearch(f: Family, term: string) {
    || Includes(Lower(f.familyName), Lower(term))
    || (Truthy(f.rootNo) && Includes(Lower(f.rootNo.value), Lower(term)))
  }

  function FilteredFamilies(families: seq<Family>, term: string): (r: seq<Family>)
    ensures forall f :: f in r <==> f in families && MatchesFamilySearch(f, term)
  {
    Filter(f => MatchesFamilySearch(f, term), families)
  }

  /** An empty search lists every family, in order, root number or not. */
  lemma EmptySearchListsEveryFamily(families: seq<Family>)
    ensures FilteredFamilies(families, "") == families
  {
    forall i | 0 <= i < |families| ensures MatchesFamilySearch(families[i], "") {
      assert Lower("") <= Lower(families[i].familyName);
    }
    FilterAll(f => MatchesFamilySearch(f, ""), families);
  }

  /** A family without a root number is found by its name alone. */
  lemma FamilyWithoutRootMatchesByName(f: Family, term: string)
    requires !Truthy(f.rootNo)
    ensures MatchesFamilySearch(f, term) <==> Includes(Lower(f.familyName), Lower(term))
  {
  }

  /** The data-collection module's state: the `families` and `family_members` tables (the
      family list is re-read after every write, so it is kept as the table itself), the
      members loaded per family, the expanded family and the member dialog. */
  class Registry {
    var families: map<string, Family>
    var memberRows: seq<Member>
    var members: map<string, seq<Member>>
    var expanded: Option<string>
    var selectedFamilyId: Option<string>
    var editingMember: Option<Member>
    var memberForm: MemberForm
    var memberDialogOpen: bool

    /** A closed member dialog holds no family, no member and an empty form; a member being
        edited belongs to the selected family. */
    ghost predicate Valid()
      reads this
    {
      && (!memberDialogOpen ==> selectedFamilyId == None && editingMember == None && memberForm == EmptyMemberForm)
      && (editingMember.Some? ==> selectedFamilyId == Some(editingMember.value.data.familyId))
    }

    constructor (fams: map<string, Family>, rows: seq<Member>)
      ensures families == fams && memberRows == rows && members == map[] && expanded == None
      ensures selectedFamilyId == None && editingMember == None && memberForm == EmptyMemberForm
      ensures !memberDialogOpen && Valid()
    {
      families := fams;
      memberRows := rows;
      members := map[];
      expanded := None;
      selectedFamilyId := None;
      editingMember := None;
      memberForm := EmptyMemberForm;
      memberDialogOpen := false;
    }

    /** `handleToggleFamily`: the expanded family collapses; any other family expands, and its
      members are loaded when none are cached for it. Cached lists are never replaced. */
    method ToggleFamily(fid: string)
      modifies this`expanded, this`members
      ensures old(expanded) == Some(fid) ==> expanded == None && members == old(members)
      ensures old(expanded) != Some(fid) ==> expanded == Some(fid)
      ensures old(expanded) != Some(fid) && fid !in old(members) ==> members == old(members)[fid := MembersOf(memberRows, fid)]
      ensures old(expanded) != Some(fid) && fid in old(members) ==> members == old(members)
      ensures forall k :: k in old(members) ==> k in members && members[k] == old(members)[k]
    {
      if expanded == Some(fid) {
        expanded := None;
      } else {
        expanded := Some(fid);
        if fid !in members {
          members := members[fid := MembersOf(memberRows, fid)];
        }
      }
    }

    /** `openAddMemberDialog`, from the page behind the closed dialog: the dialog opens for
        the family on the empty form that closing it left. */
    method OpenAddMember(fid: string)
      requires Valid() && !memberDialogOpen
      modifies this`selectedFamilyId, this`memberDialogOpen
      ensures selectedFamilyId == Some(fid) && memberDialogOpen
      ensures editingMember == None && memberForm == EmptyMemberForm
      ensures Valid()
    {
      selectedFamilyId := Some(fid);
      memberDialogOpen := true;
    }

    /** `handleEditMember`: selects the member's family, fills the dialog from the member and
        opens it. */
    method EditMember(m: Member)
      modifies this`editingMember, this`selectedFamilyId, this`memberForm, this`memberDialogOpen
      ensures editingMember == Some(m) && selectedFamilyId == Some(m.data.familyId)
      ensures memberForm == MemberEditForm(m) && memberDialogOpen
      ensures Valid()
    {
      editingMember := Some(m);
      selectedFamilyId := Some(m.data.familyId);
      memberForm := MemberEditForm(m);
      memberDialogOpen := true;
    }

    /** Closing the member dialog (`onOpenChange(false)`), which runs `resetMemberForm`. */
    method CloseMemberDialog()
      modifies this`memberDialogOpen, this`memberForm, this`editingMember, this`selectedFamilyId
      ensures !memberDialogOpen && memberForm == EmptyMemberForm && editingMember == None && selectedFamilyId == None
      ensures Valid()
    {
      memberDialogOpen := false;
      memberForm := EmptyMemberForm;
      editingMember := None;
      selectedFamilyId := None;
    }

    /** Typing into the open member dialog. */
    method SetMemberForm(f: MemberForm)
      requires Valid() && memberDialogOpen
      modifies this`memberForm
      ensures memberForm == f
      ensures Valid()
    {
      memberForm := f;
    }

    /** `handleMemberSubmit`: without a selected family nothing happens. Editing rewrites the
      member and leaves every counter alone; adding inserts a row with the id the database
      assigns (`newId`) and raises the family's counter. The family's cached members are
      re-read, and the dialog is closed and reset. */
    method SubmitMember(newId: string)
      requires Valid()
      modifies this`memberRows, this`families, this`members, this`selectedFamilyId, this`editingMember, this`memberForm,
        this`memberDialogOpen
      ensures !Truthy(old(selectedFamilyId)) ==>
        && memberRows == old(memberRows) && families == old(families) && members == old(members)
        && selectedFamilyId == old(selectedFamilyId) && editingMember == old(editingMember) && memberForm == old(memberForm)
        && memberDialogOpen == old(memberDialogOpen)
      ensures Truthy(old(selectedFamilyId)) ==>
        var fid := old(selectedFamilyId).value;
        var data := MemberColumns(old(memberForm), fid);
        && (old(editingMember).Some? ==>
              memberRows == UpdateMember(old(memberRows), old(editingMember).value.id, data) && families == old(families))
        && (old(editingMember).None? ==>
              memberRows == old(memberRows) + [Member(newId, data)] && families == CounterAfterAdd(old(families), fid))
        && members == old(members)[fid := MembersOf(memberRows, fid)]
        && selectedFamilyId == None && editingMember == None && memberForm == EmptyMemberForm && !memberDialogOpen
      ensures CountersNonNegative(old(families)) ==> CountersNonNegative(families)
      ensures Valid()
    {
      if !Truthy(selectedFamilyId) {
        return;
      }
      var fid := selectedFamilyId.value;
      var data := MemberColumns(memberForm, fid);
      var rows, fams;
      if editingMember.Some? {
        rows, fams := UpdateMember(memberRows, editingMember.value.id, data), families;
      } else {
        rows, fams := memberRows + [Member(newId, data)], CounterAfterAdd(families, fid);
        if CountersNonNegative(families) {
          CountersStayNonNegative(families, fid);
        }
      }
      memberRows, families := rows, fams;
      memberDialogOpen := false;
      memberForm := EmptyMemberForm;
      editingMember := None;
      selectedFamilyId := None;
      members := members[fid := MembersOf(memberRows, fid)];
    }

    /** `handleDeleteMember`: removes the member's row, lowers its family's counter when that
      is above 0, and re-reads the family's cached members. */
    method DeleteMember(m: Member)
      modifies this`memberRows, this`families, this`members
      ensures memberRows == WithoutMember(old(memberRows), m.id)
      ensures families == CounterAfterDelete(old(families), m.data.familyId)
      ensures members == old(members)[m.data.familyId := MembersOf(memberRows, m.data.familyId)]
      ensures CountersNonNegative(old(families)) ==> CountersNonNegative(families)
    {
      if CountersNonNegative(families) {
        CountersStayNonNegative(families, m.data.familyId);
      }
      memberRows := WithoutMember(memberRows, m.id);
      families := CounterAfterDelete(families, m.data.familyId);
      members := members[m.data.familyId := MembersOf(memberRows, m.data.familyId)];
    }
  }
}
