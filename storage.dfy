/** The browser's `localStorage`: a string-keyed map of strings. When the browser refuses
    access to storage (site data blocked), every access throws and nothing changes. */
module Storage {
  import opened Base

  const SecurityError := "SecurityError: access to storage is denied"

  class LocalStorage {
    var items: map<string, string>
    var blocked: bool

    constructor (initial: map<string, string>, denied: bool)
      ensures items == initial && blocked == denied
    {
      items := initial;
      blocked := denied;
    }

    method GetItem(key: string) returns (r: Completion<Option<string>>)
      ensures r == if blocked then Threw(SecurityError) else Returned(Get(items, key))
    {
      if blocked {
        return Threw(SecurityError);
      }
      r := Returned(Get(items, key));
    }

    method SetItem(key: string, value: string) returns (r: Completion<()>)
      modifies this`items
      ensures r == if blocked then Threw(SecurityError) else Returned(())
      ensures items == if blocked then old(items) else old(items)[key := value]
    {
      if blocked {
        return Threw(SecurityError);
      }
      items := items[key := value];
      r := Returned(());
    }

    method RemoveItem(key: string) returns (r: Completion<()>)
      modifies this`items
      ensures r == if blocked then Threw(SecurityError) else Returned(())
      ensures items == if blocked then old(items) else old(items) - {key}
    {
      if blocked {
        return Threw(SecurityError);
      }
      items := items - {key};
      r := Returned(());
    }
  }
}
