/** The superadmin's "View Dashboard As" selector: the options it lists and
    the mapping between the parent's admin id (null for the overall view)
    and the select's value ('all' for the overall view). */
module AdminSelector {
  import opened Js
  import AdminsPage

  const All := "all"

  /** One entry of the select: its value, the caption, the email shown beside
      it and the chip, if any. */
  datatype SelectOption = SelectOption(value: string, caption: string, email: Option<string>, chip: Option<string>)

  const OverallOption := SelectOption(All, "All Admins (Overall View)", None, Some("SuperAdmin"))

  /** The entry for one admin: the chip reads 'Inactive' exactly for an inactive admin. */
  function AdminOption(admin: AdminsPage.Admin): (o: SelectOption)
    ensures o.value == admin.id && o.caption == admin.name && o.email == Some(admin.email)
    ensures o.chip.Some? <==> admin.status == "inactive"
    ensures o.chip.Some? ==> o.chip.value == "Inactive"
  {
    SelectOption(admin.id, admin.name, Some(admin.email), if admin.status == "inactive" then Some("Inactive") else None)
  }

  /** The select's entries: the overall view first, then the admins in list order. */
  function Options(admins: seq<AdminsPage.Admin>): (opts: seq<SelectOption>)
    ensures |opts| == |admins| + 1
    ensures opts[0] == OverallOption
    ensures forall i :: 0 <= i < |admins| ==> opts[i + 1] == AdminOption(admins[i])
    decreases |admins|
  {
    if admins == [] then [OverallOption]
    else Options(admins[..|admins| - 1]) + [AdminOption(admins[|admins| - 1])]
  }

  /** `selectedAdminId || 'all'`: the value the select shows. */
  function Shown(selectedAdminId: Option<string>): (v: string)
    ensures Truthy(selectedAdminId) ==> v == selectedAdminId.value
    ensures !Truthy(selectedAdminId) ==> v == All
    ensures v != ""
  {
    OrElse(selectedAdminId, All)
  }

  /** `e.target.value === 'all' ? null : e.target.value`: what the parent is told. */
  function Reported(value: string): (id: Option<string>)
    ensures id.None? <==> value == All
    ensures id.Some? ==> id.value == value
  {
    if value == All then None else Some(value)
  }

  /** Admin ids are never empty and never the word 'all'. */
  predicate PlainIds(admins: seq<AdminsPage.Admin>) {
    forall i :: 0 <= i < |admins| ==> admins[i].id != "" && admins[i].id != All
  }

  /** Choosing any entry and feeding the reported id back shows that entry again. */
  lemma ChoiceRoundTrips(admins: seq<AdminsPage.Admin>, k: nat)
    requires PlainIds(admins)
    requires k < |Options(admins)|
    ensures Shown(Reported(Options(admins)[k].value)) == Options(admins)[k].value
  {
    if k > 0 {
      assert Options(admins)[k] == AdminOption(admins[k - 1]);
    }
  }

  /** The parent's id survives being shown and reported back, except that an
      empty id and the id 'all' come back as the overall view. */
  lemma SelectionRoundTrips(selectedAdminId: Option<string>)
    ensures Reported(Shown(selectedAdminId)) ==
      (if Truthy(selectedAdminId) && selectedAdminId.value != All then selectedAdminId else None)
  {
  }

  /** The shown value is always one of the entries when the id is missing or listed. */
  lemma ShownIsAnOption(admins: seq<AdminsPage.Admin>, selectedAdminId: Option<string>)
    requires PlainIds(admins)
    requires selectedAdminId.None? || exists i :: 0 <= i < |admins| && admins[i].id == selectedAdminId.value
    ensures exists k :: 0 <= k < |Options(admins)| && Options(admins)[k].value == Shown(selectedAdminId)
  {
    if selectedAdminId.None? {
      assert Options(admins)[0].value == Shown(selectedAdminId);
    } else {
      var i :| 0 <= i < |admins| && admins[i].id == selectedAdminId.value;
      assert Options(admins)[i + 1].value == Shown(selectedAdminId);
    }
  }

  /** The selector's own state: the fetched admins and the disabled-while-loading flag. */
  datatype SelectorState = SelectorState(admins: seq<AdminsPage.Admin>, loading: bool)

  const InitialSelector := SelectorState([], true)

  /** `fetchAdmins`: `response || []`; a failed request leaves the list empty. Either way loading ends. */
  function FetchAdmins(response: Result<Option<seq<AdminsPage.Admin>>, string>): (s: SelectorState)
    ensures !s.loading
    ensures response.Ok? && response.value.Some? ==> s.admins == response.value.value
    ensures !(response.Ok? && response.value.Some?) ==> s.admins == []
  {
    if response.Ok? && response.value.Some? then SelectorState(response.value.value, false)
    else SelectorState([], false)
  }
}
