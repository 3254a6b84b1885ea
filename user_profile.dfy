/**
 * The resident's profile page (user/js/profile.js): the barangay name
 * lookup, the module state `userData`/`barangays`, the drop-down built
 * from it, and the edit dialog's save, which validates the names and
 * builds the update body field by field.
 */
module UserProfile {
  import opened Options
  import opened JsText
  import opened JsValue
  import opened Requests
  import opened Collections
  import opened ProfileData
  import BarangayProfile

  // ---------------------------------------------------------------------
  // getBarangayName
  // ---------------------------------------------------------------------

  /**
   * `getBarangayName`: null for a falsy id or an empty list, otherwise the
   * `baranggay` of the first entry whose `baranggay_id` loosely equals the
   * id, or null when none does.
   */
  function GetBarangayName(barangays: seq<BarangayEntry>, barangayId: JsVal): (r: JsVal)
    ensures !Truthy(barangayId) ==> r == Null
    ensures (forall j :: 0 <= j < |barangays| ==> !LooseEq(barangays[j].baranggayId, barangayId)) ==> r == Null
    ensures forall j :: (Truthy(barangayId) && 0 <= j < |barangays| && LooseEq(barangays[j].baranggayId, barangayId) &&
                         forall k :: 0 <= k < j ==> !LooseEq(barangays[k].baranggayId, barangayId)) ==>
                        r == barangays[j].baranggay
  {
    if !Truthy(barangayId) || |barangays| == 0 then Null
    else
      var i := FindIndex(barangays, BaranggayIdIs(barangayId));
      if i == -1 then Null else barangays[i].baranggay
  }

  /**
   * On the server's list, for a set id that is listed, this page and the
   * official's page (with its lookup keyed on `baranggay_id`) show the same
   * barangay.
   */
  lemma LookupsAgree(barangays: seq<BarangayEntry>, barangayId: JsVal, j: int)
    requires forall k :: 0 <= k < |barangays| ==> barangays[k].name == Undefined
    requires Truthy(barangayId)
    requires 0 <= j < |barangays| && LooseEq(barangays[j].baranggayId, barangayId)
    ensures BarangayProfile.GetBarangayName(barangays, barangayId) == GetBarangayName(barangays, barangayId)
  {
    var i := FindIndex(barangays, BaranggayIdIs(barangayId));
    assert BaranggayIdIs(barangayId)(barangays[j]);
    assert 0 <= i && barangays[i].name == Undefined;
  }

  // ---------------------------------------------------------------------
  // populateBarangayDropdown
  // ---------------------------------------------------------------------

  /** The option of one entry: selected only when a profile is loaded and its id loosely matches. */
  function OptionFor(b: BarangayEntry, userData: Option<Profile>): DropdownOption
  {
    DropdownOption(b.baranggayId, b.baranggay, userData.Some? && LooseEq(userData.value.baranggayId, b.baranggayId))
  }

  /** The drop-down for a list: the placeholder, then one option per entry in list order. */
  function DropdownFor(list: seq<BarangayEntry>, userData: Option<Profile>): (r: seq<DropdownOption>)
    ensures |r| == |list| + 1 && r[0] == Placeholder
    ensures forall i :: 0 <= i < |list| ==>
              r[i + 1].value == list[i].baranggayId && r[i + 1].text == list[i].baranggay &&
              (r[i + 1].selected <==> userData.Some? && LooseEq(userData.value.baranggayId, list[i].baranggayId))
  {
    if list == [] then [Placeholder]
    else
      var prefix := list[..|list| - 1];
      assert forall i :: 0 <= i < |prefix| ==> prefix[i] == list[i];
      DropdownFor(prefix, userData) + [OptionFor(list[|list| - 1], userData)]
  }

  /**
   * Unlike the official's page, where an absent profile id loosely equals
   * an absent entry id, no option is selected before a profile is loaded.
   */
  lemma NoProfileNoSelection(list: seq<BarangayEntry>)
    ensures forall i :: 0 <= i < |DropdownFor(list, None)| ==> !DropdownFor(list, None)[i].selected
  {
    var r := DropdownFor(list, None);
    forall i | 0 <= i < |r|
      ensures !r[i].selected
    {
      if i > 0 {
        var k := i - 1;
        assert r[k + 1].text == list[k].baranggay;
      }
    }
  }

  // ---------------------------------------------------------------------
  // saveProfileChanges
  // ---------------------------------------------------------------------

  /** The raw values of the edit dialog's inputs. */
  datatype EditForm = EditForm(firstName: string, middleName: string, lastName: string, barangay: string)

  /**
   * The body of the update request. `middle_name` and `baranggay_id` are
   * `None` when the object has no such key.
   */
  datatype UpdateBody = UpdateBody(firstName: string, lastName: string,
                                   middleName: Option<string>, baranggayId: Option<string>)

  /**
   * The body `saveProfileChanges` sends, or `None` when it stops at the
   * name check: both trimmed names always, the trimmed middle name and the
   * untrimmed barangay id only when non-empty.
   */
  function UpdatePayload(form: EditForm): (r: Option<UpdateBody>)
    ensures r.None? <==> Trim(form.firstName) == [] || Trim(form.lastName) == []
    ensures r.Some? ==>
              r.value.firstName == Trim(form.firstName) && r.value.lastName == Trim(form.lastName) &&
              (r.value.middleName.Some? <==> Trim(form.middleName) != []) &&
              (r.value.middleName.Some? ==> r.value.middleName.value == Trim(form.middleName)) &&
              (r.value.baranggayId.Some? <==> form.barangay != []) &&
              (r.value.baranggayId.Some? ==> r.value.baranggayId.value == form.barangay)
  {
    var first := Trim(form.firstName);
    var middle := Trim(form.middleName);
    var last := Trim(form.lastName);
    if first == [] || last == [] then None
    else
      Some(UpdateBody(first, last,
                      if middle != [] then Some(middle) else None,
                      if form.barangay != [] then Some(form.barangay) else None))
  }

  /** The dialog filled back from a sent body. */
  function FormOf(body: UpdateBody): EditForm
  {
    EditForm(body.firstName,
             if body.middleName.Some? then body.middleName.value else "",
             body.lastName,
             if body.baranggayId.Some? then body.baranggayId.value else "")
  }

  /** Saving the values just sent, unchanged, sends the same body again. */
  lemma SaveIsStable(form: EditForm)
    requires UpdatePayload(form).Some?
    ensures UpdatePayload(FormOf(UpdatePayload(form).value)) == UpdatePayload(form)
  {
    TrimIdempotent(form.firstName);
    TrimIdempotent(form.middleName);
    TrimIdempotent(form.lastName);
  }

  /** The page's module state and the parts of the DOM its logic decides. */
  class UserProfilePage {
    var userData: Option<Profile>
    var barangays: seq<BarangayEntry>
    var dropdown: seq<DropdownOption>
    var saveBusy: bool
    var modalOpen: bool

    constructor ()
      ensures userData.None? && barangays == [] && dropdown == [] && !saveBusy && !modalOpen
    {
      userData := None;
      barangays := [];
      dropdown := [];
      saveBusy := false;
      modalOpen := false;
    }

    /** `populateBarangayDropdown`: rebuild the options from the module's list. */
    method PopulateBarangayDropdown()
      modifies this
      ensures dropdown == DropdownFor(barangays, userData)
      ensures userData == old(userData) && barangays == old(barangays)
      ensures saveBusy == old(saveBusy) && modalOpen == old(modalOpen)
    {
      dropdown := [Placeholder];
      var i := 0;
      while i < |barangays|
        invariant 0 <= i <= |barangays|
        invariant dropdown == DropdownFor(barangays[..i], userData)
        invariant userData == old(userData) && barangays == old(barangays)
        invariant saveBusy == old(saveBusy) && modalOpen == old(modalOpen)
      {
        assert barangays[..i + 1][..i] == barangays[..i];
        dropdown := dropdown + [OptionFor(barangays[i], userData)];
        i := i + 1;
      }
      assert barangays[..i] == barangays;
    }

    /** `fetchUserProfile` up to its call of `fetchBarangays`: a successful answer replaces `userData`. */
    method FetchUserProfile(response: Response<Profile>)
      modifies this
      ensures response.Succeeded? ==> userData == Some(response.data)
      ensures !response.Succeeded? ==> userData == old(userData)
      ensures barangays == old(barangays) && dropdown == old(dropdown)
      ensures saveBusy == old(saveBusy) && modalOpen == old(modalOpen)
    {
      if response.Succeeded? {
        userData := Some(response.data);
      }
    }

    /** `fetchBarangays`: a successful answer replaces the list and rebuilds the drop-down; failures are only logged. */
    method FetchBarangays(response: Response<seq<BarangayEntry>>)
      modifies this
      ensures response.Succeeded? ==> barangays == response.data && dropdown == DropdownFor(response.data, userData)
      ensures !response.Succeeded? ==> barangays == old(barangays) && dropdown == old(dropdown)
      ensures userData == old(userData) && saveBusy == old(saveBusy) && modalOpen == old(modalOpen)
    {
      if response.Succeeded? {
        barangays := response.data;
        PopulateBarangayDropdown();
      }
    }

    method OpenModal()
      modifies this
      ensures modalOpen
      ensures userData == old(userData) && barangays == old(barangays) && dropdown == old(dropdown)
      ensures saveBusy == old(saveBusy)
    {
      modalOpen := true;
    }

    /**
     * `saveProfileChanges`: stop at the name check without a request;
     * otherwise build the body, mark the button busy, send it, and on
     * success replace `userData` and close the dialog. The button is
     * restored whatever the answer.
     */
    method SaveProfileChanges(form: EditForm, response: Response<Profile>) returns (sent: Option<UpdateBody>)
      modifies this
      ensures sent == UpdatePayload(form)
      ensures sent.None? ==> userData == old(userData) && modalOpen == old(modalOpen) && saveBusy == old(saveBusy)
      ensures sent.Some? && response.Succeeded? ==> userData == Some(response.data) && !modalOpen
      ensures sent.Some? && !response.Succeeded? ==> userData == old(userData) && modalOpen == old(modalOpen)
      ensures sent.Some? ==> !saveBusy
      ensures barangays == old(barangays) && dropdown == old(dropdown)
    {
      var firstName := Trim(form.firstName);
      var middleName := Trim(form.middleName);
      var lastName := Trim(form.lastName);
      var baranggayId := form.barangay;
      if firstName == [] || lastName == [] {
        return None;
      }
      var updateData := UpdateBody(firstName, lastName, None, None);
      if middleName != [] {
        updateData := updateData.(middleName := Some(middleName));
      }
      if baranggayId != [] {
        updateData := updateData.(baranggayId := Some(baranggayId));
      }
      saveBusy := true;
      sent := Some(updateData);
      if response.Succeeded? {
        userData := Some(response.data);
        modalOpen := false;
      }
      saveBusy := false;
    }
  }
}
