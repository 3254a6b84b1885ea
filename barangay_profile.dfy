/**
 * The barangay official's profile page (barangay/js/profile.js): initials,
 * the barangay name lookup, the display name and account-status styling,
 * the validation and payload of a profile update, and the module state
 * `userProfile`/`barangays` with the barangay drop-down built from it.
 */
module BarangayProfile {
  import opened Options
  import opened JsText
  import opened JsValue
  import opened Requests
  import opened Collections
  import opened ProfileData

  // ---------------------------------------------------------------------
  // getInitials
  // ---------------------------------------------------------------------

  /** The upper-cased first character of a name, or nothing for a falsy name. */
  function Initial(name: Option<string>): (r: string)
    ensures |r| <= 1
    ensures r == [] <==> !Present(name)
  {
    if Present(name) then [UpperChar(name.value[0])] else []
  }

  /** `getInitials`: the initials of the names given, or 'U' when there are none. */
  function GetInitials(firstName: Option<string>, lastName: Option<string>): (r: string)
    ensures 1 <= |r| <= 2
    ensures !Present(firstName) && !Present(lastName) ==> r == "U"
    ensures Present(firstName) ==> r[0] == UpperChar(firstName.value[0])
    ensures Present(lastName) ==> r[|r| - 1] == UpperChar(lastName.value[0])
    ensures Present(firstName) && Present(lastName) ==> |r| == 2
    ensures Present(firstName) != Present(lastName) ==> |r| == 1
  {
    var letters := Initial(firstName) + Initial(lastName);
    if letters == [] then "U" else letters
  }

  /** Initials never hold a lower-case ASCII letter. */
  lemma InitialsAreCapitals(firstName: Option<string>, lastName: Option<string>)
    ensures forall i :: 0 <= i < |GetInitials(firstName, lastName)| ==> !IsLowerLetter(GetInitials(firstName, lastName)[i])
  {
    var r := GetInitials(firstName, lastName);
    forall i | 0 <= i < |r|
      ensures !IsLowerLetter(r[i])
    {
      if Present(firstName) && i == 0 {
        UpperIsNotLower(firstName.value[0]);
      } else if Present(lastName) {
        UpperIsNotLower(lastName.value[0]);
      }
    }
  }

  lemma UpperIsNotLower(c: char)
    ensures !IsLowerLetter(UpperChar(c))
  {
  }

  /** The initials do not depend on how the names are capitalised. */
  lemma InitialsIgnoreCase(first: string, last: string)
    ensures GetInitials(Some(Lower(first)), Some(Lower(last))) == GetInitials(Some(first), Some(last))
  {
    InitialOfLower(first);
    InitialOfLower(last);
  }

  lemma InitialOfLower(name: string)
    ensures Initial(Some(Lower(name))) == Initial(Some(name))
  {
    LowerEmpty(name);
    if name != [] {
      UpperOfLower(name[0]);
    }
  }

  lemma UpperOfLower(c: char)
    ensures UpperChar(LowerChar(c)) == UpperChar(c)
  {
  }

  // ---------------------------------------------------------------------
  // getBarangayName
  // ---------------------------------------------------------------------

  /** `barangay.name || barangay.baranggay`. */
  function NameOf(b: BarangayEntry): JsVal
  {
    Or(b.name, b.baranggay)
  }

  const NotSet := Str("Barangay not set")

  /** The `find` callback as written: `b => b.id == barangayId`. */
  function IdIs(barangayId: JsVal): BarangayEntry -> bool
  {
    (b: BarangayEntry) => LooseEq(b.id, barangayId)
  }

  /** `getBarangayName` as written: it compares the entries' `id` field. */
  function GetBarangayNameAsWritten(barangays: seq<BarangayEntry>, barangayId: JsVal): (r: JsVal)
    ensures (forall j :: 0 <= j < |barangays| ==> !LooseEq(barangays[j].id, barangayId)) ==> r == NotSet
    ensures forall j :: (0 <= j < |barangays| && LooseEq(barangays[j].id, barangayId) &&
                         forall k :: 0 <= k < j ==> !LooseEq(barangays[k].id, barangayId)) ==>
                        r == NameOf(barangays[j])
  {
    var i := FindIndex(barangays, IdIs(barangayId));
    if i == -1 then NotSet else NameOf(barangays[i])
  }

  /**
   * The server's entries have no `id`, so no set barangay is ever found:
   * every profile with a barangay reads 'Barangay not set'.
   */
  lemma ServerListNeverMatches(barangays: seq<BarangayEntry>, barangayId: JsVal)
    requires forall j :: 0 <= j < |barangays| ==> barangays[j].id == Undefined
    requires !Nullish(barangayId)
    ensures GetBarangayNameAsWritten(barangays, barangayId) == NotSet
  {
  }

  /** And a profile without a barangay reads as the first barangay of the list. */
  lemma UnsetIdShowsFirstEntry(barangays: seq<BarangayEntry>, barangayId: JsVal)
    requires |barangays| > 0 && barangays[0].id == Undefined
    requires Nullish(barangayId)
    ensures GetBarangayNameAsWritten(barangays, barangayId) == NameOf(barangays[0])
  {
  }

  /** A concrete case: barangay 1 is listed, yet the profile shows it as not set. */
  lemma ListedBarangayNotFound()
    ensures GetBarangayNameAsWritten([ServerEntry(Num(1), Str("San Pablo"))], Num(1)) == NotSet
    ensures GetBarangayName([ServerEntry(Num(1), Str("San Pablo"))], Num(1)) == Str("San Pablo")
  {
    var list := [ServerEntry(Num(1), Str("San Pablo"))];
    assert BaranggayIdIs(Num(1))(list[0]);
  }

  /** `getBarangayName` matching on `baranggay_id`, the key the drop-down uses. */
  function GetBarangayName(barangays: seq<BarangayEntry>, barangayId: JsVal): (r: JsVal)
    ensures (forall j :: 0 <= j < |barangays| ==> !LooseEq(barangays[j].baranggayId, barangayId)) ==> r == NotSet
    ensures forall j :: (0 <= j < |barangays| && LooseEq(barangays[j].baranggayId, barangayId) &&
                         forall k :: 0 <= k < j ==> !LooseEq(barangays[k].baranggayId, barangayId)) ==>
                        r == NameOf(barangays[j])
  {
    var i := FindIndex(barangays, BaranggayIdIs(barangayId));
    if i == -1 then NotSet else NameOf(barangays[i])
  }

  /** Option `j` is the first selected one. */
  predicate FirstSelected(options: seq<DropdownOption>, j: int)
  {
    0 <= j < |options| && options[j].selected && forall k :: 0 <= k < j ==> !options[k].selected
  }

  /** The barangay a profile's drop-down selects first is the one whose name the profile shows. */
  lemma NameMatchesSelectedOption(barangays: seq<BarangayEntry>, barangayId: JsVal, j: int)
    requires 0 <= j < |barangays|
    requires FirstSelected(DropdownFor(barangays, barangayId), j + 1)
    ensures GetBarangayName(barangays, barangayId) == NameOf(barangays[j])
  {
    var r := DropdownFor(barangays, barangayId);
    assert forall k :: 0 <= k < j ==> !LooseEq(barangays[k].baranggayId, barangayId) by {
      forall k | 0 <= k < j
        ensures !LooseEq(barangays[k].baranggayId, barangayId)
      {
        assert !r[k + 1].selected;
      }
    }
  }

  // ---------------------------------------------------------------------
  // updateProfileDisplay
  // ---------------------------------------------------------------------

  /** The name shown in the header: the trimmed "first last", or 'User' when that is empty. */
  function DisplayName(firstName: Option<string>, lastName: Option<string>): (r: string)
    ensures r != [] && Trimmed(r)
  {
    var full := Trim(OrText(firstName, "") + " " + OrText(lastName, ""));
    if full == [] then "User" else full
  }

  /** The header falls back to 'User' exactly when both names are blank. */
  lemma DisplayNameFallback(firstName: Option<string>, lastName: Option<string>)
    ensures var first := OrText(firstName, ""); var last := OrText(lastName, "");
            if AllSpace(first) && AllSpace(last) then DisplayName(firstName, lastName) == "User"
            else DisplayName(firstName, lastName) == Trim(first + " " + last)
  {
    var first := OrText(firstName, "");
    var last := OrText(lastName, "");
    var full := first + " " + last;
    TrimEmptyIffAllSpace(full);
    assert full == first + [' '] + last;
    assert AllSpace(full) <==> AllSpace(first) && AllSpace(last) by {
      assert forall i :: 0 <= i < |first| ==> full[i] == first[i];
      assert forall i :: 0 <= i < |last| ==> full[|first| + 1 + i] == last[i];
      assert IsSpace(full[|first|]);
    }
  }

  const ActiveClass := "bg-green-100 text-green-700"
  const PendingClass := "bg-yellow-100 text-yellow-700"
  const InactiveClass := "bg-red-100 text-red-700"

  /** The account-status badge colour: green for 'active', yellow for 'pending', red otherwise. */
  function StatusClass(status: Option<string>): (r: string)
    ensures r == ActiveClass <==> status == Some("active")
    ensures r == PendingClass <==> status == Some("pending")
    ensures r == InactiveClass <==> status != Some("active") && status != Some("pending")
  {
    if status == Some("active") then ActiveClass
    else if status == Some("pending") then PendingClass
    else InactiveClass
  }

  /** The verification line: 'Verified' exactly when the profile has an email. */
  function VerificationText(email: Option<string>): (r: string)
    ensures r == "Verified" <==> Present(email)
    ensures r == "Unverified" <==> !Present(email)
  {
    if Present(email) then "Verified" else "Unverified"
  }

  // ---------------------------------------------------------------------
  // saveProfile
  // ---------------------------------------------------------------------

  /** The raw values of the profile form's inputs. */
  datatype ProfileForm = ProfileForm(firstName: string, middleName: string, lastName: string,
                                     email: string, phone: string, barangayId: string)

  /** The body of the `PUT /barangay/profile` request. */
  datatype ProfileUpdate = ProfileUpdate(firstName: string, middleName: string, lastName: string,
                                         email: string, phone: string, baranggayId: string)

  datatype SaveError = NamesRequired | EmailRequired

  datatype SaveOutcome = Rejected(error: SaveError) | Send(update: ProfileUpdate)

  /**
   * `saveProfile` up to the request: trim the text inputs, require both
   * names, then the email; the barangay id is sent as the select holds it.
   */
  function SaveProfile(form: ProfileForm): (r: SaveOutcome)
    ensures r == Rejected(NamesRequired) <==> Trim(form.firstName) == [] || Trim(form.lastName) == []
    ensures r == Rejected(EmailRequired) <==>
              Trim(form.firstName) != [] && Trim(form.lastName) != [] && Trim(form.email) == []
    ensures r.Send? ==>
              r.update.firstName == Trim(form.firstName) && r.update.middleName == Trim(form.middleName) &&
              r.update.lastName == Trim(form.lastName) && r.update.email == Trim(form.email) &&
              r.update.phone == Trim(form.phone) && r.update.baranggayId == form.barangayId
  {
    var update := ProfileUpdate(Trim(form.firstName), Trim(form.middleName), Trim(form.lastName),
                                Trim(form.email), Trim(form.phone), form.barangayId);
    if update.firstName == [] || update.lastName == [] then Rejected(NamesRequired)
    else if update.email == [] then Rejected(EmailRequired)
    else Send(update)
  }

  /** The form as it reads once filled with a sent update. */
  function FormOf(u: ProfileUpdate): ProfileForm
  {
    ProfileForm(u.firstName, u.middleName, u.lastName, u.email, u.phone, u.baranggayId)
  }

  /** Saving the values just sent, unchanged, sends the same request again. */
  lemma SaveIsStable(form: ProfileForm)
    requires SaveProfile(form).Send?
    ensures SaveProfile(FormOf(SaveProfile(form).update)) == SaveProfile(form)
  {
    TrimIdempotent(form.firstName);
    TrimIdempotent(form.middleName);
    TrimIdempotent(form.lastName);
    TrimIdempotent(form.email);
    TrimIdempotent(form.phone);
  }

  // ---------------------------------------------------------------------
  // populateBarangayDropdown and the module state
  // ---------------------------------------------------------------------

  /**
   * The option of one entry: its `baranggay_id` as value, its `baranggay`
   * as text (the source's `baranggay || baranggay`), selected when its id
   * loosely equals the profile's.
   */
  function OptionFor(b: BarangayEntry, currentId: JsVal): DropdownOption
  {
    DropdownOption(b.baranggayId, Or(b.baranggay, b.baranggay), LooseEq(b.baranggayId, currentId))
  }

  /** The drop-down for a list: the placeholder, then one option per entry in list order. */
  function DropdownFor(list: seq<BarangayEntry>, currentId: JsVal): (r: seq<DropdownOption>)
    ensures |r| == |list| + 1 && r[0] == Placeholder
    ensures forall i :: 0 <= i < |list| ==>
              r[i + 1].value == list[i].baranggayId && r[i + 1].text == list[i].baranggay &&
              (r[i + 1].selected <==> LooseEq(list[i].baranggayId, currentId))
  {
    if list == [] then [Placeholder]
    else
      var prefix := list[..|list| - 1];
      assert forall i :: 0 <= i < |prefix| ==> prefix[i] == list[i];
      DropdownFor(prefix, currentId) + [OptionFor(list[|list| - 1], currentId)]
  }

  /** The list `loadBarangays` falls back to when the request throws. */
  const DefaultBarangays: seq<BarangayEntry> := [
    BarangayEntry(Num(1), Str("Barangay San Antonio"), Undefined, Undefined),
    BarangayEntry(Num(2), Str("Barangay San Jose"), Undefined, Undefined),
    BarangayEntry(Num(3), Str("Barangay San Isidro"), Undefined, Undefined),
    BarangayEntry(Num(4), Str("Barangay San Roque"), Undefined, Undefined),
    BarangayEntry(Num(5), Str("Barangay San Vicente"), Undefined, Undefined)
  ]

  /**
   * The fallback list has `id`/`name` where the drop-down reads
   * `baranggay_id`/`baranggay`: its options have no value and no text, and
   * with no profile loaded every one of them is marked selected.
   */
  lemma FallbackOptionsAreBlank()
    ensures forall i :: 1 <= i < |DropdownFor(DefaultBarangays, Undefined)| ==>
              DropdownFor(DefaultBarangays, Undefined)[i] == DropdownOption(Undefined, Undefined, true)
  {
    var r := DropdownFor(DefaultBarangays, Undefined);
    forall i | 1 <= i < |r|
      ensures r[i] == DropdownOption(Undefined, Undefined, true)
    {
      assert DefaultBarangays[i - 1].baranggayId == Undefined;
      assert DefaultBarangays[i - 1].baranggay == Undefined;
    }
  }

  /** The page's module state: the loaded profile, the barangay list and the drop-down's options. */
  class BarangayProfilePage {
    var userProfile: Option<Profile>
    var barangays: seq<BarangayEntry>
    var dropdown: seq<DropdownOption>

    constructor ()
      ensures userProfile.None? && barangays == [] && dropdown == []
    {
      userProfile := None;
      barangays := [];
      dropdown := [];
    }

    /** `userProfile?.baranggay_id`. */
    function CurrentBarangayId(): JsVal
      reads this
    {
      if userProfile.Some? then userProfile.value.baranggayId else Undefined
    }

    /** `populateBarangayDropdown`: rebuild the options from `list`. */
    method PopulateBarangayDropdown(list: seq<BarangayEntry>)
      modifies this
      ensures dropdown == DropdownFor(list, CurrentBarangayId())
      ensures userProfile == old(userProfile) && barangays == old(barangays)
    {
      var currentId := CurrentBarangayId();
      dropdown := [Placeholder];
      var i := 0;
      while i < |list|
        invariant 0 <= i <= |list|
        invariant dropdown == DropdownFor(list[..i], currentId)
        invariant userProfile == old(userProfile) && barangays == old(barangays)
      {
        assert list[..i + 1][..i] == list[..i];
        dropdown := dropdown + [OptionFor(list[i], currentId)];
        i := i + 1;
      }
      assert list[..i] == list;
    }

    /** `loadUserProfile`: a successful answer replaces the profile; anything else leaves it. */
    method LoadUserProfile(response: Response<Profile>)
      modifies this
      ensures response.Succeeded? ==> userProfile == Some(response.data)
      ensures !response.Succeeded? ==> userProfile == old(userProfile)
      ensures barangays == old(barangays) && dropdown == old(dropdown)
    {
      if response.Succeeded? {
        userProfile := Some(response.data);
      }
    }

    /**
     * `loadBarangays`: a successful answer replaces the list and rebuilds
     * the drop-down from it; a thrown request rebuilds the drop-down from
     * the built-in list and keeps the old list; `success: false` does nothing.
     */
    method LoadBarangays(response: Response<seq<BarangayEntry>>)
      modifies this
      ensures response.Succeeded? ==>
                barangays == response.data && dropdown == DropdownFor(response.data, CurrentBarangayId())
      ensures response.Threw? ==>
                barangays == old(barangays) && dropdown == DropdownFor(DefaultBarangays, CurrentBarangayId())
      ensures response.Unsuccessful? ==> barangays == old(barangays) && dropdown == old(dropdown)
      ensures userProfile == old(userProfile)
    {
      match response
      case Succeeded(data) =>
        barangays := data;
        PopulateBarangayDropdown(barangays);
      case Threw =>
        PopulateBarangayDropdown(DefaultBarangays);
      case Unsuccessful =>
    }
  }
}
