/** The few pieces of PHP's value semantics that the service script and the client library rely on. */
module Php {

  /** A PHP value as a caller may pass it to an untyped parameter. */
  datatype Value = Null | Bool(b: bool) | Int(i: int) | Str(s: string)

  /** PHP's `empty()` on a string: true for "" and also for "0". */
  predicate EmptyString(s: string)
  {
    s == "" || s == "0"
  }

  /** PHP 8's loose comparison `v == w` where `w` is a string that is not numeric
      (true of every allow-list entry in the library). A boolean is compared with the
      truthiness of `w`, null with "", an integer's decimal text (always numeric) never
      equals `w`, and two strings compare as text. */
  predicate LooseEqualsWord(v: Value, w: string)
  {
    match v
    case Null => w == ""
    case Bool(b) => b == !EmptyString(w)
    case Int(_) => false
    case Str(s) => s == w
  }

  /** `in_array(v, list)` with PHP's default, loose comparison, over a list of non-numeric words. */
  predicate LooseInArray(v: Value, list: seq<string>)
  {
    exists k :: 0 <= k < |list| && LooseEqualsWord(v, list[k])
  }

  /** `in_array(v, list, true)`: strict comparison, so only a string that is in the list. */
  predicate StrictInArray(v: Value, list: seq<string>)
  {
    v.Str? && v.s in list
  }
}
