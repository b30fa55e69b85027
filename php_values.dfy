/**
 * The PHP values the wizard stores in its cached values, URL parameters,
 * render arrays and operations, with PHP's `isset()` and `empty()` tests.
 */
module PhpValues {
  import opened Wrappers
  import opened PhpArrays

  datatype Value =
    | Null
    | Bool(b: bool)
    | Int(i: int)
    | Str(s: string)
    | Arr(entries: PhpArray<Value>)
      /** A translated string from `t()`: an object, so never empty. */
    | Markup(text: string)
      /** An object the wizard only passes around (a plugin, an access checker). */
    | Obj(className: string)
      /** A configuration entity, whose `id()` is its machine name. */
    | Entity(entityType: string, id: string)

  /** `isset($x)`, where None stands for a missing array element. */
  predicate IsSet(v: Option<Value>)
  {
    v.Some? && !v.value.Null?
  }

  /** `empty($x)`: missing, null, false, 0, "", "0" and the empty array are empty; objects never are. */
  predicate Empty(v: Option<Value>)
  {
    match v
    case None => true
    case Some(x) =>
      match x
      case Null => true
      case Bool(b) => !b
      case Int(i) => i == 0
      case Str(s) => s == "" || s == "0"
      case Arr(entries) => entries == []
      case Markup(_) => false
      case Obj(_) => false
      case Entity(_, _) => false
  }

  /**
   * An object. None of the classes modelled here implements ArrayAccess, so
   * PHP throws when code reads an offset of one, even inside `isset()` or
   * `empty()`.
   */
  predicate IsObject(v: Value)
  {
    v.Markup? || v.Obj? || v.Entity?
  }

  /**
   * `$x[$k]` inside `isset()`/`empty()`: the element of an array, and no
   * element for a scalar (PHP treats a non-numeric offset into a string, or
   * any offset into a scalar, as unset there). Callers check IsObject
   * first, since PHP throws for an object.
   */
  function Offset(v: Option<Value>, k: string): (r: Option<Value>)
  {
    if v.Some? && v.value.Arr? then Get(v.value.entries, k) else None
  }
}
