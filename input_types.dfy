/**
 * The `android.text.InputType` mask the text controllers keep, and the operations on it
 * they share: `setInputTypeMask` (through `setMultiLine` and `setSecureEntry`), and the
 * `isMultiLine` / `isSecureEntry` queries. A Java `int` is 32 bits wide, so the mask is a `bv32`.
 */
module InputTypes {
  import opened Wrappers

  const TYPE_MASK_CLASS: bv32 := 0xF
  const TYPE_CLASS_TEXT: bv32 := 0x1
  const TYPE_CLASS_PHONE: bv32 := 0x3
  const TYPE_CLASS_DATETIME: bv32 := 0x4
  const TYPE_NULL: bv32 := 0x0
  const TYPE_TEXT_VARIATION_PASSWORD: bv32 := 0x80
  const TYPE_TEXT_FLAG_MULTI_LINE: bv32 := 0x2_0000

  /**
   * `setInputTypeMask(mask, enabled)`: with `enabled` every bit of `mask` is set, otherwise
   * every bit of `mask` is cleared; the bits outside `mask` keep their value.
   */
  function ApplyMask(t: bv32, mask: bv32, enabled: bool): bv32 {
    if enabled then t | mask else t & !mask
  }

  /** The bits of `mask` end up all set or all clear; the bits outside `mask` are those of `t`. */
  lemma ApplyMaskBits(t: bv32, mask: bv32, enabled: bool)
    ensures enabled ==> ApplyMask(t, mask, enabled) & mask == mask
    ensures !enabled ==> ApplyMask(t, mask, enabled) & mask == 0
    ensures ApplyMask(t, mask, enabled) & !mask == t & !mask
  {
    if enabled {
      SetSetsMask(t, mask);
      SetKeepsRest(t, mask);
    } else {
      ClearClearsMask(t, mask);
      ClearKeepsRest(t, mask);
    }
  }

  lemma SetSetsMask(t: bv32, mask: bv32)
    ensures ApplyMask(t, mask, true) & mask == mask
  {
  }

  lemma SetKeepsRest(t: bv32, mask: bv32)
    ensures ApplyMask(t, mask, true) & !mask == t & !mask
  {
  }

  lemma ClearClearsMask(t: bv32, mask: bv32)
    ensures ApplyMask(t, mask, false) & mask == 0
  {
  }

  lemma ClearKeepsRest(t: bv32, mask: bv32)
    ensures ApplyMask(t, mask, false) & !mask == t & !mask
  {
  }

  /** Changing the multi-line flag keeps the password bit, and the other way round. */
  lemma MultiLineKeepsPassword(t: bv32, on: bool)
    ensures ApplyMask(t, TYPE_TEXT_FLAG_MULTI_LINE, on) & TYPE_TEXT_VARIATION_PASSWORD == t & TYPE_TEXT_VARIATION_PASSWORD
  {
  }

  lemma PasswordKeepsMultiLine(t: bv32, on: bool)
    ensures ApplyMask(t, TYPE_TEXT_VARIATION_PASSWORD, on) & TYPE_TEXT_FLAG_MULTI_LINE == t & TYPE_TEXT_FLAG_MULTI_LINE
  {
  }

  /** Whether every bit of `flag` is set in `t`. */
  predicate HasFlag(t: bv32, flag: bv32) {
    t & flag == flag
  }

  /** Applying the same mask change twice is the same as applying it once. */
  lemma ApplyMaskIsIdempotent(t: bv32, mask: bv32, enabled: bool)
    ensures ApplyMask(ApplyMask(t, mask, enabled), mask, enabled) == ApplyMask(t, mask, enabled)
  {
    if enabled {
      SetIsIdempotent(t, mask);
    } else {
      ClearIsIdempotent(t, mask);
    }
  }

  lemma SetIsIdempotent(t: bv32, mask: bv32)
    ensures ApplyMask(ApplyMask(t, mask, true), mask, true) == ApplyMask(t, mask, true)
  {
  }

  lemma ClearIsIdempotent(t: bv32, mask: bv32)
    ensures ApplyMask(ApplyMask(t, mask, false), mask, false) == ApplyMask(t, mask, false)
  {
  }

  /** Setting a flag that was clear and then clearing it gives back the original mask. */
  lemma SetThenClearRestores(t: bv32, mask: bv32)
    requires t & mask == 0
    ensures ApplyMask(ApplyMask(t, mask, true), mask, false) == t
  {
  }

  /** After a mask change the flag reads back as it was set (for a non-empty flag). */
  lemma FlagReadsBack(t: bv32, flag: bv32, enabled: bool)
    requires flag != 0
    ensures HasFlag(ApplyMask(t, flag, enabled), flag) == enabled
  {
    ApplyMaskBits(t, flag, enabled);
  }

  // ---------------------------------------------------------------------------
  // The queries as written, and as intended

  /** `isMultiLine()` as written: an OR with a non-zero constant, compared with 0. */
  predicate IsMultiLineAsWritten(t: bv32) {
    t | TYPE_TEXT_FLAG_MULTI_LINE != 0
  }

  /** `isSecureEntry()` as written. */
  predicate IsSecureEntryAsWritten(t: bv32) {
    t | TYPE_TEXT_VARIATION_PASSWORD != 0
  }

  /** As written, both queries answer true for every mask, so they ignore `setMultiLine(false)`. */
  lemma AsWrittenQueriesAreConstant(t: bv32)
    ensures IsMultiLineAsWritten(t) && IsSecureEntryAsWritten(t)
    ensures IsMultiLineAsWritten(ApplyMask(t, TYPE_TEXT_FLAG_MULTI_LINE, false))
  {
  }

  /** The plain text mask: neither multi-line nor a password, yet both queries as written say it is. */
  lemma PlainTextReportsBoth()
    ensures IsMultiLineAsWritten(TYPE_CLASS_TEXT) && !HasFlag(TYPE_CLASS_TEXT, TYPE_TEXT_FLAG_MULTI_LINE)
    ensures IsSecureEntryAsWritten(TYPE_CLASS_TEXT) && !HasFlag(TYPE_CLASS_TEXT, TYPE_TEXT_VARIATION_PASSWORD)
  {
  }

  /** `isMultiLine()` as intended: the multi-line flag is set. */
  predicate IsMultiLine(t: bv32) {
    HasFlag(t, TYPE_TEXT_FLAG_MULTI_LINE)
  }

  /** `isSecureEntry()` as intended: the password variation is set. */
  predicate IsSecureEntry(t: bv32) {
    HasFlag(t, TYPE_TEXT_VARIATION_PASSWORD)
  }

  /** As intended, each query answers what its setter last set. */
  lemma QueriesFollowSetters(t: bv32, on: bool)
    ensures IsMultiLine(ApplyMask(t, TYPE_TEXT_FLAG_MULTI_LINE, on)) == on
    ensures IsSecureEntry(ApplyMask(t, TYPE_TEXT_VARIATION_PASSWORD, on)) == on
  {
    FlagReadsBack(t, TYPE_TEXT_FLAG_MULTI_LINE, on);
    FlagReadsBack(t, TYPE_TEXT_VARIATION_PASSWORD, on);
  }

  /** As intended, `setMultiLine` leaves `isSecureEntry` alone and `setSecureEntry` leaves `isMultiLine` alone. */
  lemma SettersAreIndependent(t: bv32, on: bool)
    ensures IsSecureEntry(ApplyMask(t, TYPE_TEXT_FLAG_MULTI_LINE, on)) == IsSecureEntry(t)
    ensures IsMultiLine(ApplyMask(t, TYPE_TEXT_VARIATION_PASSWORD, on)) == IsMultiLine(t)
  {
    MultiLineKeepsPassword(t, on);
    PasswordKeepsMultiLine(t, on);
  }

  // ---------------------------------------------------------------------------
  // The phone length cap

  /** The mask the `isMobile` constructors choose. */
  function MobileInputType(isMobile: bool): bv32 {
    if isMobile then TYPE_CLASS_PHONE else TYPE_CLASS_TEXT
  }

  /** The `InputFilter.LengthFilter(10)` installed when the mask is exactly the phone class. */
  function LengthCap(t: bv32): Option<nat> {
    if t == TYPE_CLASS_PHONE then Some(10) else None
  }

  /**
   * A mobile field is capped at 10 characters and a plain one is not; a phone mask with any
   * extra flag set is not the phone class exactly, and is not capped either.
   */
  lemma CapFollowsExactPhoneClass(t: bv32)
    ensures LengthCap(MobileInputType(true)) == Some(10)
    ensures LengthCap(MobileInputType(false)) == None
    ensures LengthCap(ApplyMask(TYPE_CLASS_PHONE, TYPE_TEXT_FLAG_MULTI_LINE, true)) == None
    ensures LengthCap(t) != None <==> t == TYPE_CLASS_PHONE
  {
    OrNotPhone();
  }

  lemma OrNotPhone()
    ensures TYPE_CLASS_PHONE | TYPE_TEXT_FLAG_MULTI_LINE != TYPE_CLASS_PHONE
  {
  }

  // ---------------------------------------------------------------------------
  // The line mode the widgets derive from the mask

  /**
   * The Android widgets' own test in `TextView.setInputType`: a type is multi-line exactly
   * when it is of the text class and carries the multi-line flag.
   */
  predicate MultiLineInputType(t: bv32) {
    t & (TYPE_MASK_CLASS | TYPE_TEXT_FLAG_MULTI_LINE) == TYPE_CLASS_TEXT | TYPE_TEXT_FLAG_MULTI_LINE
  }

  /**
   * For a type of the text class the widget's line mode agrees with the corrected query,
   * and a type of any other class (the phone class, say) is always single-line.
   */
  lemma LineModeFollowsType(t: bv32)
    ensures t & TYPE_MASK_CLASS == TYPE_CLASS_TEXT ==> (MultiLineInputType(t) <==> IsMultiLine(t))
    ensures t & TYPE_MASK_CLASS != TYPE_CLASS_TEXT ==> !MultiLineInputType(t)
  {
    if t & TYPE_MASK_CLASS == TYPE_CLASS_TEXT {
      TextClassLineMode(t);
    } else {
      OtherClassLineMode(t);
    }
  }

  lemma TextClassLineMode(t: bv32)
    requires t & TYPE_MASK_CLASS == TYPE_CLASS_TEXT
    ensures MultiLineInputType(t) <==> t & TYPE_TEXT_FLAG_MULTI_LINE == TYPE_TEXT_FLAG_MULTI_LINE
  {
  }

  lemma OtherClassLineMode(t: bv32)
    requires t & TYPE_MASK_CLASS != TYPE_CLASS_TEXT
    ensures !MultiLineInputType(t)
  {
  }

  /** Plain text with `setMultiLine(b)` applied is shown multi-line exactly when `b`; the phone class never is. */
  lemma SetMultiLineReachesWidget(b: bool)
    ensures MultiLineInputType(ApplyMask(TYPE_CLASS_TEXT, TYPE_TEXT_FLAG_MULTI_LINE, b)) == b
    ensures !MultiLineInputType(ApplyMask(TYPE_CLASS_PHONE, TYPE_TEXT_FLAG_MULTI_LINE, b))
  {
  }
}
