/**
 * The records both profile pages work with: the account profile the
 * server returns, the entries of the barangay list, and the options of the
 * barangay drop-down.
 */
module ProfileData {
  import opened Options
  import opened JsValue

  /**
   * An account profile as the server returns it. Text fields are `None`
   * when null or missing; the barangay id is whatever JSON value the
   * server sent (a number, a numeric string, or nothing).
   */
  datatype Profile = Profile(
    firstName: Option<string>,
    middleName: Option<string>,
    lastName: Option<string>,
    email: Option<string>,
    phone: Option<string>,
    role: Option<string>,
    status: Option<string>,
    baranggayId: JsVal)

  /**
   * An entry of a barangay list. The server's entries carry `baranggay_id`
   * and `baranggay`; the built-in fallback list carries `id` and `name`.
   * A field the entry does not have reads as `undefined`.
   */
  datatype BarangayEntry = BarangayEntry(id: JsVal, name: JsVal, baranggayId: JsVal, baranggay: JsVal)

  /** An entry as the server sends it. */
  function ServerEntry(baranggayId: JsVal, baranggay: JsVal): BarangayEntry
  {
    BarangayEntry(Undefined, Undefined, baranggayId, baranggay)
  }

  /** The lookup callback `b => b.baranggay_id == barangayId`. */
  function BaranggayIdIs(barangayId: JsVal): BarangayEntry -> bool
  {
    (b: BarangayEntry) => LooseEq(b.baranggayId, barangayId)
  }

  /** One `<option>` of a barangay drop-down. */
  datatype DropdownOption = DropdownOption(value: JsVal, text: JsVal, selected: bool)

  /** The first option, `<option value="">Select Barangay</option>`. */
  const Placeholder := DropdownOption(Str(""), Str("Select Barangay"), false)
}
