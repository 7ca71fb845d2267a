/** Small wrapper types shared by every module of the model. */
module Base {

  /** A value that may be missing: JavaScript's `null` / `undefined`. */
  datatype Option<+T> = None | Some(value: T) {
    predicate IsFailure() {
      None?
    }

    function PropagateFailure<U>(): Option<U>
      requires None?
    {
      None
    }

    function Extract(): T
      requires Some?
    {
      value
    }
  }

  /** How a JavaScript call ends: it returns a value or it throws. */
  datatype Completion<+T> = Returned(value: T) | Threw(message: string)

  /** JavaScript truthiness of a string that may be missing: present and non-empty. */
  predicate Truthy(v: Option<string>) {
    v.Some? && v.value != ""
  }

  /** Reading a string-keyed map the way `getItem` or `env[name]` does: the stored
      string, or `None` (`null` / `undefined`) for an absent key. */
  function Get(items: map<string, string>, key: string): (v: Option<string>)
    ensures v.Some? <==> key in items
    ensures v.Some? ==> v.value == items[key]
  {
    if key in items then Some(items[key]) else None
  }
}
