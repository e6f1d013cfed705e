/**
 * The values a form's value store holds. A Java model slot is an untyped `Object`;
 * the model closes it over the kinds of object the controllers write or read.
 */
module Values {
  import opened Wrappers
  import JavaText

  /** One member of a choice group's selection set: an entry of `values`, or a boxed 0-based item index. */
  datatype Elem = Str(s: string) | Index(i: int)

  /** `ImageDataModel`: a caption, an image reference that may be null, and a colour. */
  datatype ImageRecord = ImageRecord(text: string, drawable: Option<string>, color: Option<string>)

  /** An element of an `ArrayList` stored in the model: an `ImageDataModel` or some other object. */
  datatype Entry = Image(record: ImageRecord) | OtherObject

  /** An `Object` stored in the value store under a field name. */
  datatype Value =
    | Text(s: string)             // java.lang.String
    | Number(n: int)              // a boxed number
    | Selection(elems: set<Elem>) // java.util.Set written by the choice groups
    | List(entries: seq<Entry>)   // java.util.ArrayList written by the image group
    | Moment(millis: int)         // java.util.Date, as milliseconds since the epoch

  /** The number a string of decimal digits spells, most significant digit first. */
  function DecimalValue(s: string): int {
    if s == [] then 0 else DecimalValue(s[..|s| - 1]) * 10 + (s[|s| - 1] as int - '0' as int)
  }

  /**
   * `Integer.toString` of a natural number: its decimal digits, which spell `n`, with no
   * leading zero.
   */
  function NatToDecimal(n: nat): (r: string)
    ensures r != [] && forall i :: 0 <= i < |r| ==> JavaText.IsAsciiDigit(r[i])
    ensures DecimalValue(r) == n
    ensures |r| > 1 ==> r[0] != '0'
    decreases n
  {
    var d := ['0' + (n % 10) as char];
    if n < 10 then d else NatToDecimal(n / 10) + d
  }

  /** Instances of `Integer.toString`, including zero and an inner zero digit. */
  lemma NatToDecimalExamples()
    ensures NatToDecimal(0) == "0" && NatToDecimal(7) == "7"
    ensures NatToDecimal(120) == "120" && NatToDecimal(1005) == "1005"
  {
  }

  /**
   * `Object.toString` of a stored value, as the text controllers display it. Strings and
   * numbers print as Java prints them; the collection and date renderings are fixed stand-ins.
   */
  function Show(v: Value): string {
    match v
    case Text(s) => s
    case Number(n) => if n < 0 then "-" + NatToDecimal(-n) else NatToDecimal(n)
    case Selection(_) => "[set]"
    case List(_) => "[list]"
    case Moment(_) => "[date]"
  }

  /** `value != null ? value.toString() : ""`: what a text controller shows for a stored value. */
  function ShowOrEmpty(v: Option<Value>): (r: string)
    ensures v.None? ==> r == ""
    ensures v.Some? && v.value.Text? ==> r == v.value.s
  {
    if v.None? then "" else Show(v.value)
  }

  /** The stored object is a `String` or nothing, as a `(String)` cast of it requires. */
  predicate TextTyped(m: map<string, Value>, name: string) {
    name in m ==> m[name].Text?
  }

  /** The stored object is a `Date` or nothing, as a `(Date)` cast of it requires. */
  predicate MomentTyped(m: map<string, Value>, name: string) {
    name in m ==> m[name].Moment?
  }
}
